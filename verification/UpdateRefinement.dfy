/**
 The routines of module Supervisor are the machine's supervisor left alone: when no other process moves,
 the machine's steps from the entry of a routine to its return have the outcome of the routine.
 */
module UpdateRefinement {
  import opened Options
  import opened ArtifactStatus
  import opened ArtifactTable
  import opened UpdateProtocol
  import opened ArtifactStore
  import Sup = Supervisor

  /** `n` steps of process `i` in a row, all with the same outside answers. */
  function Alone(w: World, i: nat, c: Choice, n: nat): World {
    if n == 0 then w else Step(Alone(w, i, c, n - 1), Run(i, c))
  }

  function FilesOf(c: Choice): Sup.Files {
    Sup.Files(c.ok, c.ok, c.message)
  }

  /** The effect of one step that neither starts nor flags another process. */
  lemma OneStep(w: World, i: nat, c: Choice)
    requires i < |w.procs| && Next(w, w.procs[i], c).spawn == [] && Next(w, w.procs[i], c).stopped.None?
    ensures var e := Next(w, w.procs[i], c);
            Step(w, Run(i, c)) == Apply(w, e.stmt, c.now).(procs := w.procs[i := e.next])
  {
    hide Next, Apply;
    var e := Next(w, w.procs[i], c);
    assert w.procs[i := e.next] + [] == w.procs[i := e.next];
  }

  predicate At(w: World, i: nat, p: Proc) {
    i < |w.procs| && w.procs[i] == p
  }

  /** One step inside executeArtifactRollback. */
  lemma RollbackStep(w: World, i: nat, c: Choice, pc: RollbackPc, site: Site)
    requires At(w, i, Supervisor(Rollback(pc, site)))
    ensures var e := NextRollback(w, pc, site, c);
            var w' := Step(w, Run(i, c));
            At(w', i, e.next) && w'.db == Apply(w, e.stmt, c.now).db && w'.link == Apply(w, e.stmt, c.now).link
  {
    hide Apply, Matches, IndexOf;
    OneStep(w, i, c);
  }

  lemma AloneStep(w: World, i: nat, c: Choice, n: nat)
    ensures Alone(w, i, c, n + 1) == Step(Alone(w, i, c, n), Run(i, c))
  {
  }

  /** The switch was made: mark the row, and log it if the mark took. */
  lemma RolledBackAlone(w: World, i: nat, c: Choice, a: Row, site: Site) returns (n: nat)
    requires At(w, i, Supervisor(Rollback(MarkRolledBack(a), site)))
    ensures var w' := Alone(w, i, c, n);
            var hit := Matches(w.db.rows, a.txId, RollbackPending);
            && At(w', i, AfterRollback(hit, site)) && w'.link == w.link
            && w'.db == if hit
                        then Logged(Logged(Cas(w.db, a.txId, RollbackPending, TransitionWrite(RolledBack, ""), None,
                                               c.now),
                                           RollbackAttemptedEvent, BaseString(a)),
                                    RollbackCompletedEvent, a.txId)
                        else w.db
  {
    hide Step, UpdateWhere, Matches, TransitionWrite;
    assert Alone(w, i, c, 0) == w;
    AloneStep(w, i, c, 0);
    RollbackStep(w, i, c, MarkRolledBack(a), site);
    if !Matches(w.db.rows, a.txId, RollbackPending) {
      return 1;
    }
    AloneStep(w, i, c, 1);
    RollbackStep(Alone(w, i, c, 1), i, c, LogAttempt(a), site);
    AloneStep(w, i, c, 2);
    RollbackStep(Alone(w, i, c, 2), i, c, LogRolledBack(a), site);
    return 3;
  }

  /** From the lookup of the base to the return. */
  lemma RollbackAlone(w: World, i: nat, c: Choice, a: Row, site: Site) returns (n: nat)
    requires At(w, i, Supervisor(Rollback(Lookup(a), site)))
    ensures var o := Sup.RollbackOutcome(w.db, w.link, a, FilesOf(c), c.now);
            var w' := Alone(w, i, c, n);
            At(w', i, AfterRollback(o.result == Ok(true), site)) && w'.db == o.db && w'.link == o.link
  {
    hide Step, Matches, IndexOf, Cas, TransitionWrite;
    assert Alone(w, i, c, 0) == w;
    var w1 := Step(w, Run(i, c));
    RollbackStep(w, i, c, Lookup(a), site);
    AloneStep(w, i, c, 0);
    if !Has(w.db.rows, BaseString(a)) {
      return 1;
    }
    var target := w.db.rows[IndexOf(w.db.rows, BaseString(a))];
    var w2 := Step(w1, Run(i, c));
    RollbackStep(w1, i, c, SwitchBack(a, target), site);
    AloneStep(w, i, c, 1);
    if !c.ok {
      RollbackStep(w2, i, c, SwitchFailed(a), site);
      AloneStep(w, i, c, 2);
      return 3;
    }
    var m := RolledBackAlone(w2, i, c, a, site);
    AloneAfterStep(w1, i, c, m);
    AloneAfterStep(w, i, c, m + 1);
    return m + 2;
  }

  /** One pass of the loop head: the same outcome as ProcessPendingRollback. */
  lemma PendingAlone(w: World, i: nat, c: Choice) returns (n: nat)
    requires At(w, i, Supervisor(Main(Head)))
    ensures var o := Sup.PendingOutcome(w.db, w.link, FilesOf(c), c.now);
            var w' := Alone(w, i, c, n);
            && At(w', i, if o.result == Ok(true) then Supervisor(Main(Head)) else Supervisor(Deploy(Claim)))
            && w'.db == o.db && w'.link == o.link
  {
    hide Step, Apply;
    OneStep(w, i, c);
    var w1 := Step(w, Run(i, c));
    assert Alone(w, i, c, 0) == w && Alone(w, i, c, 1) == w1;
    HeadStep(w, i, c);
    match LatestWithStatus(w.db.rows, RollbackPending)
    case None =>
      n := 1;
    case Some(k) =>
      var m := RollbackAlone(w1, i, c, w.db.rows[k], LoopHead);
      AloneAfterStep(w, i, c, m);
      n := m + 1;
  }

  lemma HeadStep(w: World, i: nat, c: Choice)
    requires At(w, i, Supervisor(Main(Head)))
    ensures var w' := Step(w, Run(i, c));
            && w'.db == w.db && w'.link == w.link
            && At(w', i, match LatestWithStatus(w.db.rows, RollbackPending)
                         case None => Supervisor(Deploy(Claim))
                         case Some(k) => Supervisor(Rollback(Lookup(w.db.rows[k]), LoopHead)))
  {
    OneStep(w, i, c);
  }

  lemma {:induction false} AloneAfterStep(w: World, i: nat, c: Choice, n: nat)
    ensures Alone(w, i, c, n + 1) == Alone(Step(w, Run(i, c)), i, c, n)
  {
    hide Step;
    if n == 0 {
      assert Alone(w, i, c, 0) == w;
    } else {
      AloneAfterStep(w, i, c, n - 1);
    }
  }

  /** One step inside deployApprovedArtifact. */
  lemma DeployStep(w: World, i: nat, c: Choice, pc: DeployPc)
    requires At(w, i, Supervisor(Deploy(pc)))
    ensures var e := NextDeploy(w, pc, c);
            var w' := Step(w, Run(i, c));
            && At(w', i, e.next) && w'.disk == w.disk
            && w'.db == Apply(w, e.stmt, c.now).db && w'.link == Apply(w, e.stmt, c.now).link
  {
    hide Matches, IndexOf, Insert, Cas, FirstApproved, NullIfEmpty;
    OneStep(w, i, c);
  }

  /** The two steps that record a failed deployment. */
  lemma FailAlone(w: World, i: nat, c: Choice, a: Row)
    requires At(w, i, Supervisor(Deploy(Fail(a, c.message))))
    ensures var w' := Alone(w, i, c, 2);
            && At(w', i, Supervisor(Main(Start))) && w'.link == w.link
            && w'.db == Logged(Cas(w.db, a.txId, Deploying, DeployFailedWrite(c.message), None, c.now),
                               DeployFailedEvent, a.txId)
  {
    hide Step, Cas;
    assert Alone(w, i, c, 0) == w;
    AloneStep(w, i, c, 0);
    DeployStep(w, i, c, Fail(a, c.message));
    AloneStep(w, i, c, 1);
    DeployStep(Alone(w, i, c, 1), i, c, LogFailed(a));
  }

  /** The switch was made: mark the row, and log it if the mark took. */
  lemma MarkAlone(w: World, i: nat, c: Choice, a: Row) returns (n: nat)
    requires At(w, i, Supervisor(Deploy(MarkDeployed(a))))
    ensures var w' := Alone(w, i, c, n);
            && At(w', i, Supervisor(Main(Start))) && w'.link == w.link
            && w'.db == if Matches(w.db.rows, a.txId, Deploying)
                        then Logged(Cas(w.db, a.txId, Deploying, Write(DeployedUnstable, deployFinished := true), None,
                                        c.now),
                                    DeployCompletedEvent, a.txId)
                        else w.db
  {
    hide Step, UpdateWhere, Matches;
    assert Alone(w, i, c, 0) == w;
    AloneStep(w, i, c, 0);
    DeployStep(w, i, c, MarkDeployed(a));
    if !Matches(w.db.rows, a.txId, Deploying) {
      return 1;
    }
    AloneStep(w, i, c, 1);
    DeployStep(Alone(w, i, c, 1), i, c, LogDeployed(a));
    return 2;
  }

  /** From the verification of a claimed artifact to the return. */
  lemma ClaimedAlone(w: World, i: nat, c: Choice, a: Row) returns (n: nat)
    requires At(w, i, Supervisor(Deploy(Verify(a))))
    ensures var o := Sup.ClaimedOutcome(w.db, w.link, a, w.disk, FilesOf(c), c.now);
            var w' := Alone(w, i, c, n);
            At(w', i, Supervisor(Main(Start))) && w'.db == o.db && w'.link == o.link
  {
    hide Step, IndexOf, NullIfEmpty, Cas;
    var w1 := Step(w, Run(i, c));
    DeployStep(w, i, c, Verify(a));
    if !Sup.DigestAgrees(a, w.disk, FilesOf(c)) {
      FailAlone(w1, i, c, a);
      AloneAfterStep(w, i, c, 2);
      return 3;
    }
    var w2 := Step(w1, Run(i, c));
    DeployStep(w1, i, c, SwitchTo(a));
    var m;
    if !c.ok {
      FailAlone(w2, i, c, a);
      m := 2;
    } else {
      m := MarkAlone(w2, i, c, a);
    }
    AloneAfterStep(w1, i, c, m);
    AloneAfterStep(w, i, c, m + 1);
    return m + 2;
  }

  /** From the claim to the return: the same outcome as DeployApprovedArtifact. */
  lemma DeployAlone(w: World, i: nat, c: Choice) returns (n: nat)
    requires At(w, i, Supervisor(Deploy(Claim)))
    ensures var o := Sup.DeployOutcome(w.db, w.link, w.disk, FilesOf(c), c.now);
            var w' := Alone(w, i, c, n);
            At(w', i, Supervisor(Main(Start))) && w'.db == o.db && w'.link == o.link
  {
    hide Step, IndexOf, UpdateWhere, Sup.ClaimedOutcome, NextDeploy;
    assert Alone(w, i, c, 0) == w;
    ClaimStep(w, i, c);
    var w1 := Step(w, Run(i, c));
    AloneAfterStep(w, i, c, 0);
    if FirstApproved(w.db.rows).None? {
      return 1;
    }
    var k := FirstApproved(w.db.rows).value;
    var a := w.db.rows[k].(status := Deploying);
    LogStartStep(w1, i, c, a);
    var w2 := Step(w1, Run(i, c));
    var m := ClaimedAlone(w2, i, c, a);
    AloneAfterStep(w1, i, c, m);
    AloneAfterStep(w, i, c, m + 1);
    return m + 2;
  }

  lemma ClaimStep(w: World, i: nat, c: Choice)
    requires At(w, i, Supervisor(Deploy(Claim)))
    ensures var w' := Step(w, Run(i, c));
            && w'.link == w.link && w'.disk == w.disk
            && match FirstApproved(w.db.rows)
               case None => At(w', i, Supervisor(Main(Start))) && w'.db == w.db
               case Some(k) =>
                 var a := w.db.rows[k];
                 && At(w', i, Supervisor(Deploy(LogStart(a.(status := Deploying)))))
                 && w'.db == Cas(w.db, a.txId, Approved, Write(Deploying, deployStarted := true), None, c.now)
  {
    hide Cas;
    OneStep(w, i, c);
  }

  lemma LogStartStep(w: World, i: nat, c: Choice, a: Row)
    requires At(w, i, Supervisor(Deploy(LogStart(a))))
    ensures var w' := Step(w, Run(i, c));
            && w'.link == w.link && w'.disk == w.disk && w'.db == Logged(w.db, DeployStartedEvent, a.txId)
            && At(w', i, Supervisor(Deploy(Verify(a))))
  {
    OneStep(w, i, c);
  }

  /** One step inside promoteLatestDeployedArtifact, from the supervisor. */
  lemma PromoteStep(w: World, i: nat, c: Choice, pc: PromotePc)
    requires At(w, i, Supervisor(Promote(pc)))
    ensures var (stmt, next) := NextPromote(w, pc);
            var w' := Step(w, Run(i, c));
            && At(w', i, Supervisor(if next.Some? then Promote(next.value) else Main(Head)))
            && w'.db == Apply(w, stmt, c.now).db && w'.link == Apply(w, stmt, c.now).link
  {
    hide Matches, IndexOf, Apply, LatestWithStatus;
    OneStep(w, i, c);
  }

  /** From the read to the return: the same outcome as PromoteLatestDeployedArtifact. */
  lemma PromoteAlone(w: World, i: nat, c: Choice) returns (n: nat)
    requires At(w, i, Supervisor(Promote(ReadDeployed)))
    ensures var o := Sup.PromoteOutcome(w.db, w.link, c.now);
            var w' := Alone(w, i, c, n);
            At(w', i, Supervisor(Main(Head))) && w'.db == o.db && w'.link == o.link
  {
    hide Step, IndexOf, UpdateWhere;
    assert Alone(w, i, c, 0) == w;
    var w1 := Alone(w, i, c, 1);
    AloneStep(w, i, c, 0);
    PromoteStep(w, i, c, ReadDeployed);
    if LatestWithStatus(w.db.rows, DeployedUnstable).None? {
      return 1;
    }
    var a := w.db.rows[LatestWithStatus(w.db.rows, DeployedUnstable).value];
    assert Hit(a, a.txId, DeployedUnstable);
    var w2 := Alone(w, i, c, 2);
    AloneStep(w, i, c, 1);
    PromoteStep(w1, i, c, MarkPromoted(a));
    AloneStep(w, i, c, 2);
    PromoteStep(w2, i, c, LogPromoted(a));
    return 3;
  }

  /** From the read of the crashed artifact to the return: the same outcome as AttemptArtifactRollback. */
  lemma CrashAlone(w: World, i: nat, c: Choice) returns (n: nat)
    requires At(w, i, Supervisor(Main(CrashRead)))
    ensures var o := Sup.CrashOutcome(w.db, w.link, FilesOf(c), c.now);
            var w' := Alone(w, i, c, n);
            && At(w', i, Supervisor(Main(if o.result == Ok(true) then Head else CrashFallback)))
            && w'.db == o.db && w'.link == o.link
  {
    hide Step, IndexOf, UpdateWhere, Sup.RollbackOutcome;
    assert Alone(w, i, c, 0) == w;
    AloneStep(w, i, c, 0);
    CrashReadStep(w, i, c);
    var top := LatestWithStatus(w.db.rows, DeployedUnstable);
    if top.None? || !HasBase(w.db.rows[top.value]) {
      return 1;
    }
    var a := w.db.rows[top.value];
    var w1 := Step(w, Run(i, c));
    assert Hit(a, a.txId, DeployedUnstable);
    CrashMarkStep(w1, i, c, a);
    var w2 := Step(w1, Run(i, c));
    var m := RollbackAlone(w2, i, c, a, CrashLoop);
    AloneAfterStep(w1, i, c, m);
    AloneAfterStep(w, i, c, m + 1);
    return m + 2;
  }

  lemma CrashReadStep(w: World, i: nat, c: Choice)
    requires At(w, i, Supervisor(Main(CrashRead)))
    ensures var w' := Step(w, Run(i, c));
            && w'.db == w.db && w'.link == w.link
            && At(w', i, Supervisor(Main(
                 match LatestWithStatus(w.db.rows, DeployedUnstable)
                 case None => CrashFallback
                 case Some(k) => if HasBase(w.db.rows[k]) then CrashMark(w.db.rows[k]) else CrashFallback)))
  {
    hide HasBase;
    OneStep(w, i, c);
  }

  lemma CrashMarkStep(w: World, i: nat, c: Choice, a: Row)
    requires At(w, i, Supervisor(Main(CrashMark(a)))) && Matches(w.db.rows, a.txId, DeployedUnstable)
    ensures var w' := Step(w, Run(i, c));
            && w'.link == w.link && At(w', i, Supervisor(Rollback(Lookup(a), CrashLoop)))
            && w'.db == Cas(w.db, a.txId, DeployedUnstable, TransitionWrite(RollbackPending, ""), None, c.now)
  {
    hide Cas, Matches;
    OneStep(w, i, c);
  }

  // ------------------------------------------------------- around the worker

  /** What a supervisor is, or what is left of one that gave up. */
  predicate SupervisorSeat(p: Proc) {
    p.Supervisor? || p.Gone?
  }

  lemma SupervisorWritesNoFile(w: World, pc: SupervisorPc, c: Choice)
    ensures var e := NextSupervisor(w, pc, c); !e.stmt.WriteBinary? && SupervisorSeat(e.next)
  {
    hide Matches, IndexOf, LatestWithStatus, FirstApproved, Cleaned, NullIfEmpty, HasBase, Has;
  }

  lemma OnlyWritesTouchFiles(w: World, s: Stmt, now: int)
    requires !s.WriteBinary?
    ensures Apply(w, s, now).disk == w.disk
  {
    hide Insert, EnsureBootstrap, Cas, Cleaned, WithMetadata;
  }

  lemma SupervisorTouchesNoFile(w: World, i: nat, c: Choice)
    requires i < |w.procs| && SupervisorSeat(w.procs[i])
    ensures var w' := Step(w, Run(i, c));
            w'.disk == w.disk && i < |w'.procs| && SupervisorSeat(w'.procs[i])
  {
    hide NextSupervisor, Apply;
    if w.procs[i].Supervisor? {
      SupervisorWritesNoFile(w, w.procs[i].sup, c);
    }
    OnlyWritesTouchFiles(w, Next(w, w.procs[i], c).stmt, c.now);
  }

  lemma {:induction false} SupervisorAloneTouchesNoFile(w: World, i: nat, c: Choice, n: nat)
    requires i < |w.procs| && SupervisorSeat(w.procs[i])
    ensures var w' := Alone(w, i, c, n);
            w'.disk == w.disk && i < |w'.procs| && SupervisorSeat(w'.procs[i])
  {
    hide Step;
    if n > 0 {
      SupervisorAloneTouchesNoFile(w, i, c, n - 1);
      SupervisorTouchesNoFile(Alone(w, i, c, n - 1), i, c);
    }
  }

  lemma {:induction false} AloneAdds(w: World, i: nat, c: Choice, n: nat, m: nat)
    ensures Alone(Alone(w, i, c, n), i, c, m) == Alone(w, i, c, n + m)
  {
    hide Step;
    if m > 0 {
      AloneAdds(w, i, c, n, m - 1);
    }
  }

  /** One pass from the loop head: the same outcome as BeforeWorker. */
  lemma HeadAlone(w: World, i: nat, c: Choice) returns (n: nat)
    requires At(w, i, Supervisor(Main(Head)))
    ensures var o := Sup.HeadOutcome(w.db, w.link, w.disk, FilesOf(c), c.now);
            var w' := Alone(w, i, c, n);
            && At(w', i, Supervisor(Main(if o.result == Ok(true) then Head else Start)))
            && w'.db == o.db && w'.link == o.link
  {
    hide Step, Sup.PendingOutcome, Sup.DeployOutcome;
    n := PendingAlone(w, i, c);
    if Sup.PendingOutcome(w.db, w.link, FilesOf(c), c.now).result != Ok(true) {
      SupervisorAloneTouchesNoFile(w, i, c, n);
      var m := DeployAlone(Alone(w, i, c, n), i, c);
      AloneAdds(w, i, c, n, m);
      n := n + m;
    }
  }

  function FindingOf(v: Verdict): Sup.Finding {
    match v
    case StableRun => Sup.RanStably
    case ShortRun => Sup.RanShortly
    case CrashLoopDetected => Sup.CrashLooped
  }

  lemma ExitedStep(w: World, i: nat, c: Choice)
    requires At(w, i, Supervisor(Main(Exited)))
    ensures var w' := Step(w, Run(i, c));
            && w'.link == w.link
            && w'.db == (if c.verdict.CrashLoopDetected? then Logged(w.db, Unrelated, "") else w.db)
            && At(w', i, match c.verdict
                         case StableRun => Supervisor(Promote(ReadDeployed))
                         case ShortRun => Supervisor(Main(Head))
                         case CrashLoopDetected => Supervisor(Main(CrashRead)))
  {
    OneStep(w, i, c);
  }

  lemma FallbackStep(w: World, i: nat, c: Choice)
    requires At(w, i, Supervisor(Main(CrashFallback)))
    ensures var w' := Step(w, Run(i, c));
            && w'.link == w.link && At(w', i, Supervisor(Main(Head)))
            && w'.db == if c.ok then Logged(w.db, RollbackAttemptedEvent, "") else w.db
  {
    OneStep(w, i, c);
  }

  /**
   From the end of a worker back to the loop head: the same outcome as AfterWorker. The last answer says
   whether a good revision is known.
   */
  lemma ExitAlone(w: World, i: nat, c: Choice, last: Choice) returns (n: nat, m: nat)
    requires At(w, i, Supervisor(Main(Exited)))
    ensures var o := Sup.ExitOutcome(w.db, w.link, FindingOf(c.verdict), last.ok, FilesOf(c), c.now);
            var w' := Alone(Alone(w, i, c, n), i, last, m);
            At(w', i, Supervisor(Main(Head))) && w'.db == o.db && w'.link == o.link
  {
    hide Step, Sup.PromoteOutcome, Sup.CrashOutcome;
    ExitedStep(w, i, c);
    var w1 := Step(w, Run(i, c));
    assert Alone(w, i, c, 0) == w;
    AloneStep(w, i, c, 0);
    n, m := 1, 0;
    match c.verdict {
      case ShortRun =>
      case StableRun =>
        n := PromoteAlone(w1, i, c);
        AloneAfterStep(w, i, c, n);
        n := n + 1;
      case CrashLoopDetected =>
        n := CrashAlone(w1, i, c);
        AloneAfterStep(w, i, c, n);
        n := n + 1;
        var w2 := Alone(w, i, c, n);
        if At(w2, i, Supervisor(Main(CrashFallback))) {
          FallbackStep(w2, i, last);
          assert Alone(w2, i, last, 0) == w2;
          AloneStep(w2, i, last, 0);
          m := 1;
        }
    }
    assert Alone(Alone(w, i, c, n), i, last, 0) == Alone(w, i, c, n);
  }

  /** Starting the worker, or giving up when it cannot be started. */
  lemma StartStep(w: World, i: nat, c: Choice)
    requires At(w, i, Supervisor(Main(Start)))
    ensures var w', n := Step(w, Run(i, c)), |w.procs|;
            && w'.db == w.db && w'.link == w.link && w'.disk == w.disk
            && w'.procs == if c.ok
                           then w.procs[i := Supervisor(Main(Wait(n, n + 1)))]
                                + [Worker(Commanding(Idle)), Watcher(Timer(false))]
                           else w.procs[i := Gone]
  {
  }

  /** Only a worker in the middle of its build leaves something behind when it is killed: the build command. */
  lemma KillStep(w: World, i: nat)
    requires i < |w.procs|
    ensures var w' := Step(w, Kill(i));
            && w' == w.(procs := w'.procs) && |w'.procs| == |w.procs|
            && (forall j :: 0 <= j < |w.procs| && j != i ==> w'.procs[j] == w.procs[j])
            && w'.procs[i] == match w.procs[i]
                              case Worker(Staging(tx, Build)) => Orphan(tx)
                              case _ => Gone
  {
  }

  /** The build command left behind writes its output until it ends. */
  lemma OrphanStep(w: World, i: nat, c: Choice, tx: string)
    requires At(w, i, Orphan(tx))
    ensures var w' := Step(w, Run(i, c));
            && w'.db == w.db && w'.link == w.link && At(w', i, if c.ok then Orphan(tx) else Gone)
            && w'.disk == if c.ok then w.disk[BinPath(w.root, tx) := c.digest] else w.disk
  {
  }

  /** The container's start: bootstrap is rebuilt and linked, and a supervisor launched, whatever else runs. */
  lemma ContainerStep(w: World, d: Digest)
    ensures var w' := Step(w, StartContainer(d));
            && w'.db == w.db && w'.link == w.root + "/bootstrap/worker"
            && w'.disk == w.disk[w.root + "/bootstrap/worker" := d]
            && w'.procs == w.procs + [Supervisor(Main(Ensure))]
  {
    assert "/" + "bootstrap" + "/worker" == "/bootstrap/worker";
    assert BinPath(w.root, BOOTSTRAP) == w.root + ("/" + "bootstrap" + "/worker");
  }
}

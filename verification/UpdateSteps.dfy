/** Which process, at which place, issues the statements that the exceptions of the protocol are about. */
module UpdateSteps {
  import opened Options
  import opened ArtifactStatus
  import opened ArtifactTable
  import opened UpdateProtocol
  import opened UpdateInvariant
  import opened UpdateRuns
  import ArtifactStore

  /** The statement of an action, if it is a step of a process. */
  function StmtOf(w: World, act: Action): Stmt {
    if act.Run? && act.i < |w.procs| then Next(w, w.procs[act.i], act.c).stmt else Skip
  }

  /** The process is at this place and about to move. */
  predicate Moves(w: World, act: Action, p: Proc) {
    act.Run? && act.i < |w.procs| && w.procs[act.i] == p
  }

  /** The transaction whose deployment the supervisor has claimed and not yet marked. */
  function Holder(p: Proc): Option<string> {
    match p
    case Supervisor(Deploy(LogStart(a))) => Some(a.txId)
    case Supervisor(Deploy(Verify(a))) => Some(a.txId)
    case Supervisor(Deploy(SwitchTo(a))) => Some(a.txId)
    case Supervisor(Deploy(Fail(a, _))) => Some(a.txId)
    case Supervisor(Deploy(MarkDeployed(a))) => Some(a.txId)
    case _ => None
  }

  /** What an update of a row can be, by the place it is issued from. */
  predicate UpdateFrom(p: Proc, tx: string, from: Status, to: Status, event: Option<Kind>) {
    match p
    case Supervisor(Main(CrashMark(a))) =>
      tx == a.txId && from == DeployedUnstable && to == RollbackPending && event.None?
    case Supervisor(Rollback(MarkRolledBack(a), _)) =>
      tx == a.txId && from == RollbackPending && to == RolledBack && event.None?
    case Supervisor(Deploy(Claim)) => from == Approved && to == Deploying && event.None?
    case Supervisor(Deploy(Fail(a, _))) => tx == a.txId && from == Deploying && to == DeployFailed && event.None?
    case Supervisor(Deploy(MarkDeployed(a))) =>
      tx == a.txId && from == Deploying && to == DeployedUnstable && event.None?
    case Supervisor(Promote(MarkPromoted(a))) =>
      tx == a.txId && from == DeployedUnstable && to == Promoted && event.None?
    case Watcher(AutoPromote(MarkPromoted(a))) =>
      tx == a.txId && from == DeployedUnstable && to == Promoted && event.None?
    case Worker(Commanding(ApproveUpdate(t, _))) => tx == t && from == Staged && to == Approved && event.Some?
    case Worker(Commanding(CancelUpdate(t))) => tx == t && from == Staged && to == Cancelled && event.Some?
    case Worker(Commanding(RollbackRequest(t, s))) => tx == t && from == s && to == RollbackPending && event.Some?
    case Worker(Staging(t, HashFail)) => tx == t && from == Building && to == BuildFailed && event.None?
    case Worker(Staging(t, pc)) => tx == t && PipelineMove(from, to) && event.Some?
    case _ => false
  }

  /** The moves of the pipeline that carry an event. */
  predicate PipelineMove(from: Status, to: Status) {
    match from
    case Created => to == Building
    case Building => to == BuildFailed || to == Testing
    case Testing => to == TestFailed || to == SelfChecking
    case SelfChecking => to == SelfCheckFailed || to == Staged
    case _ => false
  }

  lemma SupervisorUpdates(w: World, pc: SupervisorPc, c: Choice)
    ensures var s := NextSupervisor(w, pc, c).stmt;
            s.Update? ==> UpdateFrom(Supervisor(pc), s.tx, s.from, s.w.to, s.event)
  {
    hide IndexOf, Matches, LatestWithStatus, FirstApproved, Cleaned, NullIfEmpty;
  }

  lemma WorkerUpdates(w: World, pc: WorkerPc, c: Choice)
    ensures var s := NextWorker(w, pc, c).stmt;
            s.Update? ==> UpdateFrom(Worker(pc), s.tx, s.from, s.w.to, s.event)
  {
    hide IndexOf, Matches, Insert, LatestWithStatus, BinPath, NullIfEmpty;
  }

  /** Every update of a row is one of these. */
  lemma UpdatesComeFrom(w: World, p: Proc, c: Choice)
    ensures var s := Next(w, p, c).stmt; s.Update? ==> UpdateFrom(p, s.tx, s.from, s.w.to, s.event)
  {
    hide NextSupervisor, NextWorker, LatestWithStatus, UpdateFrom;
    match p {
      case Supervisor(pc) => SupervisorUpdates(w, pc, c);
      case Worker(pc) => WorkerUpdates(w, pc, c);
      case Watcher(pc) => WatcherUpdates(w, pc, c);
      case _ =>
    }
  }

  lemma WatcherUpdates(w: World, pc: WatcherPc, c: Choice)
    ensures var s := NextWatcher(w, pc).stmt;
            s.Update? ==> UpdateFrom(Watcher(pc), s.tx, s.from, s.w.to, s.event)
  {
  }

  /** What the switch of a place goes to. */
  predicate SwitchFrom(p: Proc, c: Choice, path: string) {
    match p
    case Supervisor(Rollback(SwitchBack(_, target), _)) => c.ok && path == target.binPath
    case Supervisor(Deploy(SwitchTo(a))) => c.ok && path == a.binPath
    case _ => false
  }

  /** The link is switched, and the table cleaned, exactly from these places. */
  lemma SwitchesComeFrom(w: World, p: Proc, c: Choice, path: string)
    ensures Next(w, p, c).stmt == Switch(path) <==> SwitchFrom(p, c, path)
    ensures Next(w, p, c).stmt == CleanUp <==> p == Supervisor(Main(Cleanup))
  {
    hide IndexOf, Matches, Insert, LatestWithStatus, FirstApproved, Cleaned, NullIfEmpty, BinPath, HasBase;
  }

  /** A process keeps its place, is killed, is new or flagged, or took its own next step. */
  lemma ProcMoves(w: World, act: Action, p: nat)
    requires p < |Step(w, act).procs|
    ensures var q := Step(w, act).procs[p];
            || (p < |w.procs| && q == w.procs[p])
            || Harmless(q) || q.Orphan?
            || (act.Run? && act.i == p < |w.procs| && q == Next(w, w.procs[p], act.c).next)
  {
    hide Next, Apply;
    if act.Run? && act.i < |w.procs| {
      SpawnHarmless(w, w.procs[act.i], act.c);
      if |w.procs| <= p {
        assert || Step(w, act).procs[p] in Next(w, w.procs[act.i], act.c).spawn
               || Step(w, act).procs[p] == Watcher(Timer(true));
      }
    }
  }

  // --------------------------------------------------------- changes of status

  /** The status of a row after a statement. */
  function StatusAfter(row: Row, s: Stmt): Status {
    match s
    case Update(tx, from, write, _) => if Hit(row, tx, from) then write.to else row.status
    case CleanUp => CleanedStatus(row.status)
    case _ => row.status
  }

  lemma StatementSetsStatus(w: World, s: Stmt, now: int, i: nat)
    requires i < |w.db.rows|
    ensures var rows := Apply(w, s, now).db.rows;
            i < |rows| && rows[i].txId == w.db.rows[i].txId && rows[i].binPath == w.db.rows[i].binPath
            && rows[i].status == StatusAfter(w.db.rows[i], s)
  {
    hide Has, NullIfEmpty, BinPath;
  }

  /** The table, the log and the link after an action are those after its statement, or a start has reset the link. */
  lemma StepIsStatement(w: World, act: Action)
    ensures var w' := Step(w, act);
            var now := if act.Run? then act.c.now else 0;
            && (act.Run? ==> w'.db == Apply(w, StmtOf(w, act), now).db && w'.link == Apply(w, StmtOf(w, act), now).link)
            && (!act.Run? ==> w'.db.rows == w.db.rows)
            && (!act.Run? ==> w'.link == if act.StartContainer? then BinPath(w.root, BOOTSTRAP) else w.link)
            && w'.root == w.root
  {
    hide NextSupervisor, NextWatcher, NextWorker, Insert, EnsureBootstrap, Cas, Cleaned, WithMetadata;
  }

  lemma StepSetsStatus(w: World, act: Action, i: nat)
    requires i < |w.db.rows|
    ensures var rows := Step(w, act).db.rows;
            i < |rows| && rows[i].txId == w.db.rows[i].txId && rows[i].binPath == w.db.rows[i].binPath
            && rows[i].status == StatusAfter(w.db.rows[i], StmtOf(w, act))
  {
    hide Step, Apply, StmtOf;
    StepIsStatement(w, act);
    if act.Run? {
      StatementSetsStatus(w, StmtOf(w, act), act.c.now, i);
    } else {
      assert StmtOf(w, act) == Skip by { NoStatement(w, act); }
    }
  }

  lemma NoStatement(w: World, act: Action)
    requires !act.Run?
    ensures StmtOf(w, act) == Skip
  {
  }

  /** The cleanup step sweeps the whole table. */
  lemma CleanupStepSweeps(w: World, act: Action, i: nat)
    requires Moves(w, act, Supervisor(Main(Cleanup))) && i < |w.db.rows|
    ensures var rows := Step(w, act).db.rows;
            |rows| == |w.db.rows| && Swept(w.db.rows[i], rows[i], act.c.now) && !InProgress(rows[i])
  {
    hide Step, Swept, InProgress, CleanedRow;
    StepIsStatement(w, act);
    CleanupStatement(w, act.c);
    CleanupSweeps(w.db.rows, act.c.now, i);
  }

  lemma CleanupStatement(w: World, c: Choice)
    ensures Next(w, Supervisor(Main(Cleanup)), c).stmt == CleanUp
  {
    hide Cleaned;
  }

  /**
   The promise that `promoted` is final fails in exactly one way: a promoted row leaves that status iff the
   step is a worker's request to roll it back.
   */
  lemma LeavesPromotedIff(w: World, act: Action, i: nat)
    requires Inv(w) && i < |w.db.rows| && w.db.rows[i].status.Promoted?
    ensures i < |Step(w, act).db.rows|
    ensures !Step(w, act).db.rows[i].status.Promoted?
            <==> Moves(w, act, Worker(Commanding(RollbackRequest(w.db.rows[i].txId, Promoted))))
  {
    hide Step, Inv, Next;
    StepSetsStatus(w, act, i);
    if act.Run? && act.i < |w.procs| {
      UpdatesComeFrom(w, w.procs[act.i], act.c);
      if Moves(w, act, Worker(Commanding(RollbackRequest(w.db.rows[i].txId, Promoted)))) {
        RequestStatement(w, w.db.rows[i].txId, act.c);
      }
    }
  }

  lemma RequestStatement(w: World, tx: string, c: Choice)
    ensures Next(w, Worker(Commanding(RollbackRequest(tx, Promoted))), c).stmt
            == Update(tx, Promoted, TransitionWrite(RollbackPending, ""), Some(RollbackRequestedEvent))
  {
  }

  /** The process is about to promote the row: a supervisor, or a watcher while the worker still runs. */
  predicate AtPromotion(p: Proc, tx: string) {
    match p
    case Supervisor(Promote(MarkPromoted(a))) => a.txId == tx
    case Watcher(AutoPromote(MarkPromoted(a))) => a.txId == tx
    case _ => false
  }

  /** A row becomes promoted exactly when a process at that place marks it while it is deployed. */
  lemma BecomesPromotedIff(w: World, act: Action, i: nat)
    requires Inv(w) && i < |w.db.rows| && !w.db.rows[i].status.Promoted?
    ensures i < |Step(w, act).db.rows|
    ensures Step(w, act).db.rows[i].status.Promoted?
            <==> && act.Run? && act.i < |w.procs| && AtPromotion(w.procs[act.i], w.db.rows[i].txId)
                 && w.db.rows[i].status.DeployedUnstable?
  {
    hide Step, Inv, Next;
    StepSetsStatus(w, act, i);
    if act.Run? && act.i < |w.procs| {
      var p := w.procs[act.i];
      UpdatesComeFrom(w, p, act.c);
      if AtPromotion(p, w.db.rows[i].txId) {
        PromotionStatement(w, p, act.c, w.db.rows[i].txId);
      }
    }
  }

  lemma PromotionStatement(w: World, p: Proc, c: Choice, tx: string)
    requires AtPromotion(p, tx)
    ensures Next(w, p, c).stmt == Update(tx, DeployedUnstable, TransitionWrite(Promoted, ""), None)
  {
    hide Matches;
  }

  /** The places whose status writes are not accompanied by an event. */
  predicate Silent(p: Proc) {
    || p == Supervisor(Main(Cleanup))
    || (p.Supervisor? && p.sup.Main? && p.sup.main.CrashMark?)
    || (p.Supervisor? && p.sup.Rollback? && p.sup.rollback.MarkRolledBack?)
    || (p.Supervisor? && p.sup.Deploy? && (p.sup.deploy.Claim? || p.sup.deploy.Fail? || p.sup.deploy.MarkDeployed?))
    || (p.Supervisor? && p.sup.Promote? && p.sup.promote.MarkPromoted?)
    || (p.Watcher? && p.watch.AutoPromote? && p.watch.pc.MarkPromoted?)
    || (p.Worker? && p.work.Staging? && p.work.stage.HashFail?)
  }

  lemma SilentUpdates(p: Proc, tx: string, from: Status, to: Status, event: Option<Kind>)
    requires UpdateFrom(p, tx, from, to, event)
    ensures event.None? <==> Silent(p)
  {
  }

  /**
   The promise that every status change is logged in its own transaction fails in exactly these ways: the
   change comes with an event of its transaction iff the step is none of the startup cleanup, the claim, the
   marks of the supervisor and its watcher, and the end of a build whose file cannot be read; in these the
   log does not change at all.
   */
  lemma ChangeIsLoggedIff(w: World, act: Action, i: nat)
    requires Inv(w) && i < |w.db.rows|
    requires i < |Step(w, act).db.rows| ==> Step(w, act).db.rows[i].status != w.db.rows[i].status
    ensures act.Run? && act.i < |w.procs| && i < |Step(w, act).db.rows|
    ensures (exists kind :: Step(w, act).db.log == w.db.log + [Event(kind, w.db.rows[i].txId)])
            <==> !Silent(w.procs[act.i])
    ensures Silent(w.procs[act.i]) ==> Step(w, act).db.log == w.db.log
  {
    hide Step, Inv, Next, Apply;
    StepSetsStatus(w, act, i);
    StepIsStatement(w, act);
    var p, s := w.procs[act.i], StmtOf(w, act);
    UpdatesComeFrom(w, p, act.c);
    SwitchesComeFrom(w, p, act.c, "");
    if s.Update? {
      SilentUpdates(p, s.tx, s.from, s.w.to, s.event);
      UpdateLog(w, s, act.c.now, i);
    } else {
      CleanUpLog(w, act.c.now);
    }
  }

  lemma UpdateLog(w: World, s: Stmt, now: int, i: nat)
    requires s.Update? && i < |w.db.rows| && Hit(w.db.rows[i], s.tx, s.from)
    ensures Apply(w, s, now).db.log
            == if s.event.Some? then w.db.log + [Event(s.event.value, w.db.rows[i].txId)] else w.db.log
  {
    assert Matches(w.db.rows, s.tx, s.from);
  }

  lemma CleanUpLog(w: World, now: int)
    ensures Apply(w, CleanUp, now).db.log == w.db.log
  {
  }
}

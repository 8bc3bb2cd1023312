/**
 The self-update protocol as a state machine: supervisors, their auto-promote watchers and workers run
 over one store and one active link, interleaved in any way, and any process can die between two steps.

 One step of a process is one SQL statement or transaction, one file operation, or one local decision.
 What the code cannot control (the outcome of a command, a clock, an incoming message, when a timer
 fires) is a `Choice` handed to the step, so `Step` is a function and a run is a sequence of actions.
 A run may contain any number of supervisors, watchers and workers at the same time.
 */
module UpdateProtocol {
  import opened Options
  import opened ArtifactStatus
  import opened ArtifactTable
  import ArtifactStore
  import Text

  // ------------------------------------------------------------ identifiers

  predicate IsTxChar(c: char) {
    'a' <= c <= 'z' || '0' <= c <= '9' || c == '-'
  }

  /** The tx_id a command can carry: it matched [a-z0-9-]+ after lower-casing. */
  predicate IsTxId(tx: string) {
    tx != "" && forall c :: c in tx ==> IsTxChar(c)
  }

  predicate IsHexDigit(c: char) {
    '0' <= c <= '9' || 'a' <= c <= 'f'
  }

  /** The characters of a tx_id and of a digest, by code point. */
  lemma Alphabets(c: char)
    ensures IsTxChar(c) <==> c as int == 45 || 48 <= c as int < 58 || 97 <= c as int < 97 + 26
    ensures IsHexDigit(c) <==> 48 <= c as int < 58 || 97 <= c as int < 97 + 6
  {
  }

  predicate IsDigest(s: string) {
    |s| == 64 && forall c :: c in s ==> IsHexDigit(c)
  }

  /** A SHA-256 in lower-case hex. The hash itself is not computed: files are known by their digest. */
  type Digest = s: string | IsDigest(s) witness seq(64, _ => '0')

  /** The worker refuses a relative artifact root at start. */
  predicate IsAbsolute(path: string) {
    path != "" && path[0] == '/'
  }

  /** filepath.Join(root, tx, "worker") for a clean root and a tx_id without separators. */
  function BinPath(root: string, tx: string): string {
    root + "/" + tx + "/worker"
  }

  // -------------------------------------------------------------- processes

  /** Where a rollback was started: from the loop head or from crash-loop handling. */
  datatype Site = LoopHead | CrashLoop

  /** Places in executeArtifactRollback. */
  datatype RollbackPc =
    | Lookup(a: Row)
    | SwitchBack(a: Row, target: Row)
    | SwitchFailed(a: Row)
    | MarkRolledBack(a: Row)
    | LogAttempt(a: Row)
    | LogRolledBack(a: Row)

  /** Places in deployApprovedArtifact. */
  datatype DeployPc =
    | Claim
    | LogStart(a: Row)
    | Verify(a: Row)
    | SwitchTo(a: Row)
    | Fail(a: Row, message: string)
    | LogFailed(a: Row)
    | MarkDeployed(a: Row)
    | LogDeployed(a: Row)

  /** Places in promoteLatestDeployedArtifact, which the supervisor and its watchers share. */
  datatype PromotePc =
    | ReadDeployed
    | MarkPromoted(a: Row)
    | LogPromoted(a: Row)

  /** Places in the supervisor's start-up, main loop and attemptArtifactRollback. */
  datatype MainPc =
    | Ensure
    | EnsureInsert(bin: string)
    | EnsureLog
    | Cleanup
    | CleanupLog
    | Head
    | Start
    | Wait(worker: nat, watcher: nat)
    | Exited
    | CrashRead
    | CrashMark(a: Row)
    | CrashFallback

  datatype SupervisorPc =
    | Main(main: MainPc)
    | Rollback(rollback: RollbackPc, site: Site)
    | Deploy(deploy: DeployPc)
    | Promote(promote: PromotePc)

  datatype WatcherPc =
    | Timer(workerExited: bool)
    | AutoPromote(pc: PromotePc)

  /** Places in runUpdateStagePipeline. */
  datatype StagePc =
    | LookupTx
    | ReadBase
    | InsertRow(base: string)
    | Enter
    | Build
    | BuildFail
    | Hash
    | HashFail
    | StoreMetadata(sha: Digest)
    | LogBuilt
    | ToTesting
    | Test
    | TestFail
    | LogTested
    | ToSelfCheck
    | SelfCheck
    | SelfCheckFail
    | LogChecked
    | ToStaged

  /** Places in the other direct commands. */
  datatype CommandPc =
    | Idle
    | ApproveLookup(tx: string, chat: int)
    | ApproveUpdate(tx: string, chat: int)
    | CancelLookup(tx: string)
    | CancelUpdate(tx: string)
    | RollbackRead(tx: string)
    | RollbackRequest(tx: string, from: Status)

  datatype WorkerPc =
    | Commanding(pc: CommandPc)
    | Staging(tx: string, stage: StagePc)

  /** `Orphan` is a build command that outlives the worker that started it. */
  datatype Proc =
    | Gone
    | Supervisor(sup: SupervisorPc)
    | Watcher(watch: WatcherPc)
    | Worker(work: WorkerPc)
    | Orphan(tx: string)

  /**
   `link` is the target of the active worker link; `disk` maps a path to the digest of the file there.
   Two fields are history: `promotedEver` holds every tx_id that has had status promoted at some point of
   the run, `tampered` says whether someone other than a build has touched a file.
   */
  datatype World = World(
    root: string,
    db: Db,
    link: string,
    disk: map<string, Digest>,
    procs: seq<Proc>,
    promotedEver: set<string>,
    tampered: bool)

  datatype Verdict = StableRun | ShortRun | CrashLoopDetected

  datatype Command =
    | NoCommand
    | UpdateStage(tx: string)
    | Approve(tx: string, chat: int)
    | Cancel(tx: string)
    | RollbackCmd(tx: string)

  datatype Choice = Choice(
    ok: bool, now: int, digest: Digest, message: string, verdict: Verdict, command: Command)

  // -------------------------------------------------------------- statements

  datatype Stmt =
    | Skip
    | InsertCreated(tx: string, base: string)
    | InsertBootstrap(bin: string)
    | Update(tx: string, from: Status, w: Write, event: Option<Kind>)
    | CleanUp
    | Metadata(tx: string, sha: Digest)
    | Log(kind: Kind, tx: string)
    | Switch(path: string)
    | WriteBinary(tx: string, digest: Digest)

  function PromotedTxs(rows: seq<Row>): set<string> {
    set i | 0 <= i < |rows| && rows[i].status.Promoted? :: rows[i].txId
  }

  function WithDb(w: World, db: Db): World {
    w.(db := db, promotedEver := w.promotedEver + PromotedTxs(db.rows))
  }

  function Apply(w: World, s: Stmt, now: int): World {
    match s
    case Skip => w
    case InsertCreated(tx, base) =>
      (match Insert(w.db, tx, base, BinPath(w.root, tx), Created, Some(TxnCreatedEvent), now)
       case Ok(db) => WithDb(w, db)
       case Err(_) => w)
    case InsertBootstrap(bin) =>
      (match EnsureBootstrap(w.db, BOOTSTRAP, bin, now)
       case Ok(db) => WithDb(w, db)
       case Err(_) => w)
    case Update(tx, from, write, event) => WithDb(w, Cas(w.db, tx, from, write, event, now))
    case CleanUp => WithDb(w, Db(Cleaned(w.db.rows, now), w.db.log))
    case Metadata(tx, sha) => WithDb(w, Db(WithMetadata(w.db.rows, tx, sha, now), w.db.log))
    case Log(kind, tx) => w.(db := Logged(w.db, kind, tx))
    case Switch(path) => w.(link := path)
    case WriteBinary(tx, digest) => w.(disk := w.disk[BinPath(w.root, tx) := digest])
  }

  /** What one process does next: a statement, its own next place, and its effect on other processes. */
  datatype Effect = Effect(stmt: Stmt, next: Proc, spawn: seq<Proc> := [], stopped: Option<nat> := None)

  // -------------------------------------------------------------- supervisor

  function ToMain(stmt: Stmt, pc: MainPc): Effect {
    Effect(stmt, Supervisor(Main(pc)))
  }

  /** Where the supervisor continues after a rollback that did or did not succeed. */
  function AfterRollback(done: bool, site: Site): Proc {
    if done then Supervisor(Main(Head))
    else if site.LoopHead? then Supervisor(Deploy(Claim))
    else Supervisor(Main(CrashFallback))
  }

  function NextRollback(w: World, pc: RollbackPc, site: Site, c: Choice): Effect {
    match pc
    case Lookup(a) =>
      var base := BaseString(a);
      if Has(w.db.rows, base)
      then Effect(Skip, Supervisor(Rollback(SwitchBack(a, w.db.rows[IndexOf(w.db.rows, base)]), site)))
      else Effect(Skip, AfterRollback(false, site))
    case SwitchBack(a, target) =>
      if c.ok
      then Effect(Switch(target.binPath), Supervisor(Rollback(MarkRolledBack(a), site)))
      else Effect(Skip, Supervisor(Rollback(SwitchFailed(a), site)))
    case SwitchFailed(a) => Effect(Log(RollbackAttemptedEvent, BaseString(a)), AfterRollback(false, site))
    case MarkRolledBack(a) =>
      Effect(Update(a.txId, RollbackPending, TransitionWrite(RolledBack, ""), None),
             if Matches(w.db.rows, a.txId, RollbackPending)
             then Supervisor(Rollback(LogAttempt(a), site))
             else AfterRollback(false, site))
    case LogAttempt(a) =>
      Effect(Log(RollbackAttemptedEvent, BaseString(a)), Supervisor(Rollback(LogRolledBack(a), site)))
    case LogRolledBack(a) => Effect(Log(RollbackCompletedEvent, a.txId), AfterRollback(true, site))
  }

  function NextDeploy(w: World, pc: DeployPc, c: Choice): Effect {
    match pc
    case Claim =>
      (match FirstApproved(w.db.rows)
       case None => ToMain(Skip, Start)
       case Some(i) =>
         var a := w.db.rows[i];
         Effect(Update(a.txId, Approved, Write(Deploying, deployStarted := true), None),
                Supervisor(Deploy(LogStart(a.(status := Deploying))))))
    case LogStart(a) => Effect(Log(DeployStartedEvent, a.txId), Supervisor(Deploy(Verify(a))))
    case Verify(a) =>
      Effect(Skip, Supervisor(Deploy(
        if a.sha256.Some? && NullIfEmpty(a.sha256.value).Some? then
          if !c.ok || a.binPath !in w.disk then Fail(a, c.message)
          else if w.disk[a.binPath] != a.sha256.value then Fail(a, c.message)
          else SwitchTo(a)
        else SwitchTo(a))))
    case SwitchTo(a) =>
      if c.ok
      then Effect(Switch(a.binPath), Supervisor(Deploy(MarkDeployed(a))))
      else Effect(Skip, Supervisor(Deploy(Fail(a, c.message))))
    case Fail(a, message) =>
      Effect(Update(a.txId, Deploying, ArtifactStore.DeployFailedWrite(message), None),
             Supervisor(Deploy(LogFailed(a))))
    case LogFailed(a) => ToMain(Log(DeployFailedEvent, a.txId), Start)
    case MarkDeployed(a) =>
      Effect(Update(a.txId, Deploying, Write(DeployedUnstable, deployFinished := true), None),
             if Matches(w.db.rows, a.txId, Deploying)
             then Supervisor(Deploy(LogDeployed(a)))
             else Supervisor(Main(Start)))
    case LogDeployed(a) => ToMain(Log(DeployCompletedEvent, a.txId), Start)
  }

  /** `None` as the next place means that the routine has returned. */
  function NextPromote(w: World, pc: PromotePc): (Stmt, Option<PromotePc>) {
    match pc
    case ReadDeployed =>
      (match LatestWithStatus(w.db.rows, DeployedUnstable)
       case None => (Skip, None)
       case Some(i) => (Skip, Some(MarkPromoted(w.db.rows[i]))))
    case MarkPromoted(a) =>
      (Update(a.txId, DeployedUnstable, TransitionWrite(Promoted, ""), None),
       if Matches(w.db.rows, a.txId, DeployedUnstable) then Some(LogPromoted(a)) else None)
    case LogPromoted(a) => (Log(PromotedEvent, a.txId), None)
  }

  function NextMain(w: World, pc: MainPc, c: Choice): Effect {
    match pc
    case Ensure =>
      if LatestPromotedTx(w.db.rows) != "" || Text.IsBlank(w.link) || !c.ok then ToMain(Skip, Cleanup)
      else ToMain(Skip, EnsureInsert(w.link))
    case EnsureInsert(bin) => ToMain(InsertBootstrap(bin), EnsureLog)
    case EnsureLog => ToMain(Log(PromotedEvent, BOOTSTRAP), Cleanup)
    case Cleanup => ToMain(CleanUp, if Cleaned(w.db.rows, c.now) != w.db.rows then CleanupLog else Head)
    case CleanupLog => ToMain(Log(CleanupCompletedEvent, ""), Head)
    case Head =>
      Effect(Skip, Supervisor(
        match LatestWithStatus(w.db.rows, RollbackPending)
        case None => Deploy(Claim)
        case Some(i) => Rollback(Lookup(w.db.rows[i]), LoopHead)))
    case Start =>
      if c.ok
      then Effect(Skip, Supervisor(Main(Wait(|w.procs|, |w.procs| + 1))),
                  spawn := [Worker(Commanding(Idle)), Watcher(Timer(false))])
      else Effect(Skip, Gone)
    case Wait(worker, watcher) =>
      // The worker has exited; a build command it was running may still be at work.
      if worker < |w.procs| && !w.procs[worker].Worker?
      then Effect(Skip, Supervisor(Main(Exited)), stopped := Some(watcher))
      else ToMain(Skip, pc)
    case Exited =>
      (match c.verdict
       case StableRun => Effect(Skip, Supervisor(Promote(ReadDeployed)))
       case ShortRun => ToMain(Skip, Head)
       case CrashLoopDetected => ToMain(Log(Unrelated, ""), CrashRead))
    case CrashRead =>
      ToMain(Skip,
             match LatestWithStatus(w.db.rows, DeployedUnstable)
             case None => CrashFallback
             case Some(i) => if HasBase(w.db.rows[i]) then CrashMark(w.db.rows[i]) else CrashFallback)
    case CrashMark(a) =>
      Effect(Update(a.txId, DeployedUnstable, TransitionWrite(RollbackPending, ""), None),
             if Matches(w.db.rows, a.txId, DeployedUnstable)
             then Supervisor(Rollback(Lookup(a), CrashLoop))
             else Supervisor(Main(CrashFallback)))
    case CrashFallback => ToMain(if c.ok then Log(RollbackAttemptedEvent, "") else Skip, Head)
  }

  function NextSupervisor(w: World, pc: SupervisorPc, c: Choice): Effect {
    match pc
    case Main(m) => NextMain(w, m, c)
    case Rollback(r, site) => NextRollback(w, r, site, c)
    case Deploy(d) => NextDeploy(w, d, c)
    case Promote(p) =>
      var (stmt, next) := NextPromote(w, p);
      Effect(stmt, Supervisor(if next.Some? then Promote(next.value) else Main(Head)))
  }

  // ----------------------------------------------------------------- watcher

  function NextWatcher(w: World, pc: WatcherPc): Effect {
    match pc
    case Timer(exited) => Effect(Skip, if exited then Gone else Watcher(AutoPromote(ReadDeployed)))
    case AutoPromote(p) =>
      var (stmt, next) := NextPromote(w, p);
      Effect(stmt, if next.Some? then Watcher(AutoPromote(next.value)) else Gone)
  }

  // ------------------------------------------------------------------ worker

  function ToCommand(stmt: Stmt, pc: CommandPc): Effect {
    Effect(stmt, Worker(Commanding(pc)))
  }

  function Dispatch(command: Command): WorkerPc {
    match command
    case NoCommand => Commanding(Idle)
    case UpdateStage(tx) => if IsTxId(tx) then Staging(tx, LookupTx) else Commanding(Idle)
    case Approve(tx, chat) => Commanding(if IsTxId(tx) then ApproveLookup(tx, chat) else Idle)
    case Cancel(tx) => Commanding(if IsTxId(tx) then CancelLookup(tx) else Idle)
    case RollbackCmd(tx) => Commanding(if IsTxId(tx) then RollbackRead(tx) else Idle)
  }

  predicate HasStatus(rows: seq<Row>, tx: string, status: Status) {
    Has(rows, tx) && rows[IndexOf(rows, tx)].status == status
  }

  function NextCommand(w: World, pc: CommandPc, c: Choice): Effect {
    var rows := w.db.rows;
    match pc
    case Idle => Effect(Skip, Worker(Dispatch(c.command)))
    case ApproveLookup(tx, chat) =>
      ToCommand(Skip, if HasStatus(rows, tx, Staged) then ApproveUpdate(tx, chat) else Idle)
    case ApproveUpdate(tx, chat) =>
      ToCommand(Update(tx, Staged, Write(Approved, chat := Some(chat)), Some(ApprovedEvent)), Idle)
    case CancelLookup(tx) => ToCommand(Skip, if HasStatus(rows, tx, Staged) then CancelUpdate(tx) else Idle)
    case CancelUpdate(tx) => ToCommand(Update(tx, Staged, TransitionWrite(Cancelled, ""), Some(CancelledEvent)), Idle)
    case RollbackRead(tx) =>
      ToCommand(Skip,
                if !Has(rows, tx) then Idle
                else
                  var a := rows[IndexOf(rows, tx)];
                  if (a.status.DeployedUnstable? || a.status.Promoted?) && HasBase(a)
                  then RollbackRequest(tx, a.status) else Idle)
    case RollbackRequest(tx, from) =>
      ToCommand(Update(tx, from, TransitionWrite(RollbackPending, ""), Some(RollbackRequestedEvent)), Idle)
  }

  function ToStage(stmt: Stmt, tx: string, pc: StagePc): Effect {
    Effect(stmt, Worker(Staging(tx, pc)))
  }

  /** A pipeline move that goes on when it hit its row and gives up when it missed. */
  function Advance(w: World, tx: string, from: Status, to: Status, event: Kind, next: StagePc): Effect {
    Effect(Update(tx, from, TransitionWrite(to, ""), Some(event)),
           Worker(if Matches(w.db.rows, tx, from) then Staging(tx, next) else Commanding(Idle)))
  }

  /** A pipeline move into a failure status, after which the pipeline is over. */
  function Abort(tx: string, from: Status, to: Status, error: string, event: Option<Kind>): Effect {
    ToCommand(Update(tx, from, TransitionWrite(to, error), event), Idle)
  }

  function NextStage(w: World, tx: string, pc: StagePc, c: Choice): Effect {
    match pc
    case LookupTx => if Has(w.db.rows, tx) then ToCommand(Skip, Idle) else ToStage(Skip, tx, ReadBase)
    case ReadBase =>
      if c.ok then ToStage(Skip, tx, InsertRow(LatestPromotedTx(w.db.rows))) else ToCommand(Skip, Idle)
    case InsertRow(base) =>
      Effect(InsertCreated(tx, base),
             Worker(if Insert(w.db, tx, base, BinPath(w.root, tx), Created, Some(TxnCreatedEvent), c.now).Ok?
                    then Staging(tx, Enter) else Commanding(Idle)))
    case Enter => Advance(w, tx, Created, Building, BuildStartedEvent, Build)
    case Build =>
      // The build command writes the binary any number of times, then ends with success or failure.
      if c.verdict.ShortRun? then ToStage(WriteBinary(tx, c.digest), tx, Build)
      else ToStage(Skip, tx, if c.ok then Hash else BuildFail)
    case BuildFail => Abort(tx, Building, BuildFailed, c.message, Some(BuildFailedEvent))
    case Hash =>
      var bin := BinPath(w.root, tx);
      ToStage(Skip, tx, if c.ok && bin in w.disk then StoreMetadata(w.disk[bin]) else HashFail)
    case HashFail => Abort(tx, Building, BuildFailed, c.message, None)
    case StoreMetadata(sha) => ToStage(Metadata(tx, sha), tx, LogBuilt)
    case LogBuilt => ToStage(Log(BuildCompletedEvent, tx), tx, ToTesting)
    case ToTesting => Advance(w, tx, Building, Testing, TestStartedEvent, Test)
    case Test => ToStage(Skip, tx, if c.ok then LogTested else TestFail)
    case TestFail => Abort(tx, Testing, TestFailed, c.message, Some(TestFailedEvent))
    case LogTested => ToStage(Log(TestCompletedEvent, tx), tx, ToSelfCheck)
    case ToSelfCheck => Advance(w, tx, Testing, SelfChecking, SelfCheckStartedEvent, SelfCheck)
    case SelfCheck => ToStage(Skip, tx, if c.ok then LogChecked else SelfCheckFail)
    case SelfCheckFail => Abort(tx, SelfChecking, SelfCheckFailed, c.message, Some(SelfCheckFailedEvent))
    case LogChecked => ToStage(Log(SelfCheckCompletedEvent, tx), tx, ToStaged)
    case ToStaged => ToCommand(Update(tx, SelfChecking, TransitionWrite(Staged, ""), Some(StagedEvent)), Idle)
  }

  function NextWorker(w: World, pc: WorkerPc, c: Choice): Effect {
    match pc
    case Commanding(p) => NextCommand(w, p, c)
    case Staging(tx, p) => NextStage(w, tx, p, c)
  }

  // -------------------------------------------------------------------- runs

  /** The step of process `i`; a process that is gone does nothing. */
  function Next(w: World, p: Proc, c: Choice): Effect {
    match p
    case Gone => Effect(Skip, Gone)
    case Supervisor(pc) => NextSupervisor(w, pc, c)
    case Watcher(pc) => NextWatcher(w, pc)
    case Worker(pc) => NextWorker(w, pc, c)
    case Orphan(tx) => if c.ok then Effect(WriteBinary(tx, c.digest), p) else Effect(Skip, Gone)
  }

  /** What is left of a process that is killed: a running build command survives its worker. */
  function Killed(p: Proc): Proc {
    if p.Worker? && p.work.Staging? && p.work.stage.Build? then Orphan(p.work.tx) else Gone
  }

  function WithFlag(procs: seq<Proc>, stopped: Option<nat>): (r: seq<Proc>)
    ensures |r| == |procs|
  {
    if stopped.Some? && stopped.value < |procs| && procs[stopped.value].Watcher? && procs[stopped.value].watch.Timer?
    then procs[stopped.value := Watcher(Timer(true))]
    else procs
  }

  datatype Action =
    | Run(i: nat, c: Choice)        // process i takes its next step
    | Kill(i: nat)                  // process i dies
    | StartContainer(d: Digest)     // startup.sh: bootstrap is rebuilt, the link reset, a supervisor launched
    | StartSupervisor               // a supervisor alone is launched
    | Tamper(path: string, file: Option<Digest>)  // someone overwrites or deletes a file
    | Chatter                       // some process logs an event that is not about an update

  function Step(w: World, act: Action): World {
    match act
    case Run(i, c) =>
      if i < |w.procs| then
        var e := Next(w, w.procs[i], c);
        var w' := Apply(w, e.stmt, c.now);
        w'.(procs := WithFlag(w.procs[i := e.next] + e.spawn, e.stopped))
      else w
    case Kill(i) => if i < |w.procs| then w.(procs := w.procs[i := Killed(w.procs[i])]) else w
    case StartContainer(d) =>
      var bin := BinPath(w.root, BOOTSTRAP);
      w.(disk := w.disk[bin := d], link := bin, procs := w.procs + [Supervisor(Main(Ensure))])
    case StartSupervisor => w.(procs := w.procs + [Supervisor(Main(Ensure))])
    case Tamper(path, file) =>
      w.(tampered := true, disk := if file.Some? then w.disk[path := file.value] else w.disk - {path})
    case Chatter => w.(db := Logged(w.db, Unrelated, ""))
  }

  /** The world after a sequence of actions. */
  function Execute(w: World, acts: seq<Action>): World {
    if |acts| == 0 then w else Step(Execute(w, acts[..|acts| - 1]), acts[|acts| - 1])
  }

  /** The bootstrap record is installed, it is the active artifact, and nothing runs yet. */
  ghost predicate Initial(w: World) {
    && IsAbsolute(w.root)
    && |w.db.rows| == 1
    && (exists now :: w.db.rows[0] == NewRow(BOOTSTRAP, None, BinPath(w.root, BOOTSTRAP), Promoted, now))
    && w.db.log == []
    && w.link == BinPath(w.root, BOOTSTRAP)
    && w.procs == []
    && w.promotedEver == {BOOTSTRAP}
    && !w.tampered
  }
}

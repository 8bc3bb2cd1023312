/**
 Runs from the installed bootstrap, for any transactions: they reach the states in which a promise about
 the active artifact, about `promoted` or about the log does not hold, so the conditions proved for these
 promises are needed.
 */
module UpdateScenarios {
  import opened Options
  import opened ArtifactStatus
  import opened ArtifactTable
  import opened UpdateProtocol
  import opened UpdateInvariant
  import opened UpdateRuns
  import opened UpdateRefinement
  import opened UpdateRestart
  import opened UpdatePipeline
  import opened PipelineRefinement
  import opened ActiveArtifact
  import ArtifactStore
  import RollbackDrain
  import Sup = Supervisor

  // ------------------------------------------------------- reachable, untouched

  /** The invariant holds and nobody has touched a file. */
  ghost predicate Sound(w: World) {
    Inv(w) && !w.tampered
  }

  predicate NoStarts(acts: seq<Action>) {
    forall i :: 0 <= i < |acts| ==> !IsStart(acts[i])
  }

  /** Some actions, no start among them, lead from one world to the other. */
  ghost predicate Leads(w: World, v: World) {
    Sound(v) && v.root == w.root && exists acts :: NoStarts(acts) && Execute(w, acts) == v
  }

  lemma Stay(w: World)
    requires Sound(w)
    ensures Leads(w, w)
  {
    assert Execute(w, []) == w && NoStarts([]);
  }

  lemma Onward(u: World, v: World, w: World)
    requires Leads(u, v) && Leads(v, w)
    ensures Leads(u, w)
  {
    hide Execute, Sound;
    var first :| NoStarts(first) && Execute(u, first) == v;
    var second :| NoStarts(second) && Execute(v, second) == w;
    ExecuteConcat(u, first, second);
    assert NoStarts(first + second);
  }

  lemma TamperedStays(w: World, act: Action)
    requires !act.Tamper?
    ensures Step(w, act).tampered == w.tampered
  {
    hide NextSupervisor, NextWatcher, NextWorker, Insert, EnsureBootstrap, Cas, Cleaned, WithMetadata;
  }

  lemma ByAction(w: World, act: Action)
    requires Sound(w) && !act.Tamper? && !IsStart(act)
    ensures Leads(w, Step(w, act))
  {
    hide Step, Inv;
    SoundStep(w, act);
    ExecuteOne(w, act);
    assert NoStarts([act]);
  }

  lemma SoundStep(w: World, act: Action)
    requires Sound(w) && !act.Tamper?
    ensures Sound(Step(w, act)) && Step(w, act).root == w.root
  {
    hide Step, Inv;
    StepKeeps(w, act);
    RootStays(w, act);
    TamperedStays(w, act);
  }

  lemma {:induction false} ByAlone(w: World, i: nat, c: Choice, n: nat)
    requires Sound(w)
    ensures Leads(w, Alone(w, i, c, n))
  {
    hide Step, Sound, Leads;
    if n == 0 {
      Stay(w);
    } else {
      ByAlone(w, i, c, n - 1);
      LeadsSound(w, Alone(w, i, c, n - 1));
      ByAction(Alone(w, i, c, n - 1), Run(i, c));
      Onward(w, Alone(w, i, c, n - 1), Alone(w, i, c, n));
    }
  }

  lemma LeadsSound(w: World, v: World)
    requires Leads(w, v)
    ensures Sound(v) && v.root == w.root
  {
  }

  lemma {:induction false} ByFed(w: World, i: nat, answers: seq<Choice>)
    requires Sound(w)
    ensures Leads(w, Fed(w, i, answers))
    decreases |answers|
  {
    hide Step, Sound, Leads;
    if answers == [] {
      Stay(w);
    } else {
      var v := Step(w, Run(i, answers[0]));
      ByAction(w, Run(i, answers[0]));
      LeadsSound(w, v);
      ByFed(v, i, answers[1..]);
      Onward(w, v, Fed(w, i, answers));
    }
  }

  // ------------------------------------------------------ the table, in outline

  datatype Line = Line(txId: string, base: string, status: Status)

  function Lines(rows: seq<Row>): (r: seq<Line>)
    ensures |r| == |rows|
  {
    seq(|rows|, i requires 0 <= i < |rows| => Line(rows[i].txId, BaseString(rows[i]), rows[i].status))
  }

  function Marked(lines: seq<Line>, k: nat, to: Status): (r: seq<Line>)
    requires k < |lines|
    ensures |r| == |lines|
  {
    lines[k := lines[k].(status := to)]
  }

  /** The line is the last one with its status. */
  predicate Newest(lines: seq<Line>, k: nat) {
    k < |lines| && forall j :: k < j < |lines| ==> lines[j].status != lines[k].status
  }

  predicate NoneIs(lines: seq<Line>, status: Status) {
    forall j :: 0 <= j < |lines| ==> lines[j].status != status
  }

  lemma CasLine(db: Db, k: nat, write: Write, event: Option<Kind>, now: int)
    requires Unique(db.rows) && k < |db.rows|
    ensures var row := db.rows[k];
            && IndexOf(db.rows, row.txId) == k
            && Matches(db.rows, row.txId, row.status)
            && var rows := Cas(db, row.txId, row.status, write, event, now).rows;
               Unique(rows) && Lines(rows) == Marked(Lines(db.rows), k, write.to)
               && rows[k] == Written(row, write, now)
  {
    IndexUnique(db.rows, k);
    CasTouchesOneRow(db, db.rows[k].txId, db.rows[k].status, write, event, now);
  }

  lemma NewestLine(rows: seq<Row>, k: nat)
    requires Newest(Lines(rows), k)
    ensures LatestWithStatus(rows, rows[k].status) == Some(k)
  {
    forall j | k <= j < |rows|
      ensures rows[j].status == rows[k].status <==> j == k
    {
      assert Lines(rows)[j].status == rows[j].status;
    }
  }

  lemma NoLine(rows: seq<Row>, status: Status)
    requires NoneIs(Lines(rows), status)
    ensures LatestWithStatus(rows, status).None?
    ensures status.Approved? ==> FirstApproved(rows).None?
  {
    forall i | 0 <= i < |rows|
      ensures rows[i].status != status
    {
      assert Lines(rows)[i].status == rows[i].status;
    }
  }

  // ------------------------------------------------------------ steps of a story

  function Answering(verdict: Verdict, command: Command): Choice {
    Choice(true, 0, seq(64, _ => '0'), "", verdict, command)
  }

  const YES: Choice := Answering(ShortRun, NoCommand)

  /** Where the supervisor, process 0, stands, over which table and link. */
  ghost predicate Scene(w: World, p: SupervisorPc, lines: seq<Line>, link: string) {
    At(w, 0, Supervisor(p)) && Lines(w.db.rows) == lines && w.link == link
  }

  /** The supervisor waits for worker n, which waits for a command. */
  ghost predicate Session(w: World, n: nat, lines: seq<Line>, link: string) {
    Scene(w, Main(Wait(n, n + 1)), lines, link) && At(w, n, Worker(Commanding(Idle)))
  }

  /** Every story begins with this. */
  const START: Action := StartContainer(YES.digest)

  const BOOT: Line := Line(BOOTSTRAP, "", Promoted)

  lemma Started(w: World)
    requires Initial(w)
    ensures var u := Step(w, START);
            && u.procs == [Supervisor(Main(Ensure))] && u.db == w.db && u.link == BinPath(w.root, BOOTSTRAP)
            && Sound(u) && u.root == w.root
  {
    InitialOk(w);
    hide BinPath;
    SoundStep(w, START);
  }

  lemma BootLines(w: World)
    requires Initial(w)
    ensures Lines(Cleaned(w.db.rows, 0)) == [BOOT]
  {
    assert Cleaned(w.db.rows, 0)[0] == w.db.rows[0];
  }

  lemma Launch(w: World) returns (v: World)
    requires Initial(w)
    ensures Sound(Step(w, START)) && Step(w, START).root == w.root
    ensures Leads(Step(w, START), v) && Scene(v, Main(Start), [BOOT], BinPath(w.root, BOOTSTRAP))
  {
    hide Initial, Inv, BinPath, LatestPromotedTx, Step, Execute, Lines, Cleaned, Alone;
    Started(w);
    BootLines(w);
    var u := Step(w, START);
    PromotedThere(u);
    var k := StartupAlone(u, 0, YES);
    var v1 := Alone(u, 0, YES, k);
    ByAlone(u, 0, YES, k);
    v := ToWorker(v1, [BOOT], BinPath(w.root, BOOTSTRAP));
    Onward(u, v1, v);
  }

  lemma Open(w: World, lines: seq<Line>, link: string) returns (v: World, n: nat)
    requires Sound(w) && Scene(w, Main(Start), lines, link)
    ensures Leads(w, v) && Session(v, n, lines, link) && At(v, n + 1, Watcher(Timer(false)))
  {
    hide Inv, Lines;
    v, n := Step(w, Run(0, YES)), |w.procs|;
    ByAction(w, Run(0, YES));
  }

  lemma Close(w: World, n: nat, stable: bool, lines: seq<Line>, link: string) returns (v: World)
    requires Sound(w) && Session(w, n, lines, link)
    ensures Leads(w, v) && Scene(v, if stable then Promote(ReadDeployed) else Main(Head), lines, link)
  {
    hide Inv, Lines, Step, Execute;
    var c := Answering(if stable then StableRun else ShortRun, NoCommand);
    WorkerKilled(w, n);
    var w1 := Step(w, Kill(n));
    ByAction(w, Kill(n));
    WaitStep(w1, n, c);
    var w2 := Step(w1, Run(0, c));
    ByAction(w1, Run(0, c));
    ExitedStep(w2, 0, c);
    v := Step(w2, Run(0, c));
    ByAction(w2, Run(0, c));
    Onward(w, w1, w2);
    Onward(w, w2, v);
  }

  lemma WorkerKilled(w: World, n: nat)
    requires At(w, 0, Supervisor(Main(Wait(n, n + 1)))) && At(w, n, Worker(Commanding(Idle)))
    ensures var w' := Step(w, Kill(n));
            At(w', 0, Supervisor(Main(Wait(n, n + 1)))) && At(w', n, Gone) && w'.db == w.db && w'.link == w.link
  {
  }

  lemma WaitStep(w: World, n: nat, c: Choice)
    requires At(w, 0, Supervisor(Main(Wait(n, n + 1)))) && At(w, n, Gone)
    ensures var w' := Step(w, Run(0, c));
            At(w', 0, Supervisor(Main(Exited))) && w'.db == w.db && w'.link == w.link
  {
  }

  // -------------------------------------------------------- what a worker does

  lemma WorkerStep(w: World, n: nat, c: Choice, p: Proc)
    requires n < |w.procs| && n != 0 && w.procs[n].Worker? && At(w, 0, p)
    ensures var w' := Step(w, Run(n, c)); n < |w'.procs| && w'.procs[n].Worker? && At(w', 0, p)
  {
    hide Apply, Insert, Matches, IndexOf;
    OneStep(w, n, c);
  }

  lemma {:induction false} WorkerAlone(w: World, n: nat, c: Choice, k: nat, p: Proc)
    requires n < |w.procs| && n != 0 && w.procs[n].Worker? && At(w, 0, p)
    ensures var w' := Alone(w, n, c, k); n < |w'.procs| && w'.procs[n].Worker? && At(w', 0, p)
  {
    hide Step;
    if k > 0 {
      WorkerAlone(w, n, c, k - 1, p);
      WorkerStep(Alone(w, n, c, k - 1), n, c, p);
    }
  }

  lemma {:induction false} WorkerFed(w: World, n: nat, answers: seq<Choice>, p: Proc)
    requires n < |w.procs| && n != 0 && w.procs[n].Worker? && At(w, 0, p)
    ensures At(Fed(w, n, answers), 0, p)
    decreases |answers|
  {
    hide Step;
    if answers != [] {
      WorkerStep(w, n, answers[0], p);
      WorkerFed(Step(w, Run(n, answers[0])), n, answers[1..], p);
    }
  }

  /** The worker takes a command in. */
  lemma Hears(w: World, n: nat, command: Command, lines: seq<Line>, link: string) returns (v: World)
    requires Sound(w) && Session(w, n, lines, link)
    ensures Leads(w, v) && Scene(v, Main(Wait(n, n + 1)), lines, link) && At(v, n, Worker(Dispatch(command)))
    ensures v.db == w.db
  {
    hide Inv, Lines, IsTxId;
    var c := Answering(ShortRun, command);
    v := Step(w, Run(n, c));
    ByAction(w, Run(n, c));
    OneStep(w, n, c);
  }

  const GOOD: Tools := Tools(true, true, Some(YES.digest), true, true, "")

  lemma StagedLines(w: World, db: Db, tx: string, k: nat)
    requires Inv(w) && Newest(Lines(db.rows), k) && db.rows[k].status.Promoted?
    requires w.db == RunStaged(db, tx, BinPath(w.root, tx), GOOD, _ => 0)
    ensures Lines(w.db.rows) == Lines(db.rows) + [Line(tx, db.rows[k].txId, Staged)]
  {
    NewestLine(db.rows, k);
    assert RowOk(w, |db.rows|);
    hide Inv, RowOk, LatestWithStatus, BinPath, EventsOf;
  }

  lemma NotThere(rows: seq<Row>, tx: string)
    requires forall j :: 0 <= j < |rows| ==> Lines(rows)[j].txId != tx
    ensures !Has(rows, tx)
  {
    forall i | 0 <= i < |rows|
      ensures rows[i].txId != tx
    {
      assert Lines(rows)[i].txId == rows[i].txId;
    }
  }

  /** `update stage`, all commands succeeding. */
  lemma Stage(w: World, n: nat, tx: string, k: nat, lines: seq<Line>, link: string) returns (v: World)
    requires Sound(w) && Session(w, n, lines, link) && IsTxId(tx)
    requires forall j :: 0 <= j < |lines| ==> lines[j].txId != tx
    requires Newest(lines, k) && lines[k].status.Promoted?
    ensures Leads(w, v) && Session(v, n, lines + [Line(tx, lines[k].txId, Staged)], link)
  {
    var u := Hears(w, n, UpdateStage(tx), lines, link);
    NotThere(w.db.rows, tx);
    Rooted(u);
    var clock := _ => 0;
    hide Inv, BinPath, IsTxId, Has, Fed, RunStaged, Newest, Lines, IsAbsolute, Step, Execute;
    var answers := StageAlone(u, n, tx, GOOD, clock);
    v := Fed(u, n, answers);
    ByFed(u, n, answers);
    WorkerFed(u, n, answers, Supervisor(Main(Wait(n, n + 1))));
    Onward(w, u, v);
    StagedLines(v, w.db, tx, k);
  }

  lemma Rooted(w: World)
    requires Inv(w)
    ensures IsAbsolute(w.root)
  {
  }

  lemma Approves(w: World, n: nat, k: nat, lines: seq<Line>, link: string) returns (v: World)
    requires Sound(w) && Session(w, n, lines, link) && k < |lines| && lines[k].status.Staged?
    ensures Leads(w, v) && Session(v, n, Marked(lines, k, Approved), link)
  {
    var tx := w.db.rows[k].txId;
    assert RowOk(w, k);
    CasLine(w.db, k, Write(Approved, chat := Some(0)), Some(ApprovedEvent), 0);
    hide Inv, Lines, IsTxId, Cas, Unique, Step, Execute;
    var u := Hears(w, n, Approve(tx, 0), lines, link);
    var m := ApproveAlone(u, n, YES, tx, 0);
    v := Alone(u, n, YES, m);
    ByAlone(u, n, YES, m);
    WorkerAlone(u, n, YES, m, Supervisor(Main(Wait(n, n + 1))));
    Onward(w, u, v);
  }

  lemma UpdateHasBase(w: World, k: nat)
    requires Inv(w) && 0 < k < |w.db.rows|
    ensures HasBase(w.db.rows[k]) && BaseString(w.db.rows[k]) == w.db.rows[k].baseTxId.value
  {
    assert RowOk(w, k);
    var base := IndexOf(w.db.rows, w.db.rows[k].baseTxId.value);
    assert RowOk(w, base);
    TxIdUntrimmed(w.db.rows[base].txId);
  }

  /** `rollback` of an artifact that is deployed or promoted. */
  lemma Requests(w: World, n: nat, k: nat, lines: seq<Line>, link: string) returns (v: World)
    requires Sound(w) && Session(w, n, lines, link) && 0 < k < |lines|
    requires lines[k].status.DeployedUnstable? || lines[k].status.Promoted?
    ensures Leads(w, v) && Session(v, n, Marked(lines, k, RollbackPending), link)
  {
    var tx := w.db.rows[k].txId;
    assert RowOk(w, k);
    UpdateHasBase(w, k);
    CasLine(w.db, k, TransitionWrite(RollbackPending, ""), Some(RollbackRequestedEvent), 0);
    hide Inv, Lines, IsTxId, Cas, Unique, HasBase, TransitionWrite, Step, Execute;
    var u := Hears(w, n, RollbackCmd(tx), lines, link);
    var m := RequestRollbackAlone(u, n, YES, tx);
    v := Alone(u, n, YES, m);
    ByAlone(u, n, YES, m);
    WorkerAlone(u, n, YES, m, Supervisor(Main(Wait(n, n + 1))));
    Onward(w, u, v);
  }

  // ------------------------------------------------------ what a supervisor does

  lemma Promotes(w: World, k: nat, lines: seq<Line>, link: string) returns (v: World)
    requires Sound(w) && Scene(w, Promote(ReadDeployed), lines, link)
    requires Newest(lines, k) && lines[k].status.DeployedUnstable?
    ensures Leads(w, v) && Scene(v, Main(Head), Marked(lines, k, Promoted), link)
  {
    NewestLine(w.db.rows, k);
    CasLine(w.db, k, TransitionWrite(Promoted, ""), None, 0);
    hide Inv, Lines, Cas, LatestWithStatus, TransitionWrite;
    var m := PromoteAlone(w, 0, YES);
    v := Alone(w, 0, YES, m);
    ByAlone(w, 0, YES, m);
  }

  /** Nothing is pending: on to the deployments. */
  lemma PassesHead(w: World, lines: seq<Line>, link: string) returns (v: World)
    requires Sound(w) && Scene(w, Main(Head), lines, link) && NoneIs(lines, RollbackPending)
    ensures Leads(w, v) && Scene(v, Deploy(Claim), lines, link)
  {
    NoLine(w.db.rows, RollbackPending);
    hide Inv, Lines, LatestWithStatus;
    v := Step(w, Run(0, YES));
    ByAction(w, Run(0, YES));
    HeadStep(w, 0, YES);
  }

  /** Nothing is approved: on to the worker. */
  lemma PassesClaim(w: World, lines: seq<Line>, link: string) returns (v: World)
    requires Sound(w) && Scene(w, Deploy(Claim), lines, link) && NoneIs(lines, Approved)
    ensures Leads(w, v) && Scene(v, Main(Start), lines, link)
  {
    NoLine(w.db.rows, Approved);
    hide Inv, Lines, FirstApproved;
    v := Step(w, Run(0, YES));
    ByAction(w, Run(0, YES));
    ClaimStep(w, 0, YES);
  }

  /** The newest pending row is rolled back. */
  lemma RollsBack(w: World, k: nat, lines: seq<Line>, link: string) returns (v: World)
    requires Sound(w) && Scene(w, Main(Head), lines, link)
    requires Newest(lines, k) && lines[k].status.RollbackPending? && 0 < k
    ensures Leads(w, v) && Scene(v, Main(Head), Marked(lines, k, RolledBack), BinPath(w.root, lines[k].base))
  {
    NewestLine(w.db.rows, k);
    CasLine(w.db, k, TransitionWrite(RolledBack, ""), None, 0);
    BaseBinary(w, k);
    hide Inv, Lines, Cas, LatestWithStatus, TransitionWrite, BinPath, Has, IndexOf;
    var m := PendingAlone(w, 0, YES);
    v := Alone(w, 0, YES, m);
    ByAlone(w, 0, YES, m);
  }

  lemma BaseBinary(w: World, k: nat)
    requires Inv(w) && 0 < k < |w.db.rows|
    ensures var base := BaseString(w.db.rows[k]);
            Has(w.db.rows, base) && w.db.rows[IndexOf(w.db.rows, base)].binPath == BinPath(w.root, base)
  {
    UpdateHasBase(w, k);
    assert RowOk(w, k);
    assert RowOk(w, IndexOf(w.db.rows, w.db.rows[k].baseTxId.value));
  }

  /** The only approved row is claimed. */
  lemma Claims(w: World, k: nat, lines: seq<Line>, link: string) returns (v: World, a: Row)
    requires Sound(w) && Scene(w, Deploy(Claim), lines, link)
    requires k < |lines| && lines[k].status.Approved?
    requires forall j :: 0 <= j < |lines| && lines[j].status.Approved? ==> j == k
    ensures v == Step(w, Run(0, YES)) && Leads(w, v) && v.db.log == w.db.log && v.disk == w.disk
    ensures Scene(v, Deploy(LogStart(a)), Marked(lines, k, Deploying), link)
    ensures a.txId == lines[k].txId && a.binPath == BinPath(w.root, lines[k].txId)
    ensures a.sha256.Some? && a.binPath in w.disk && w.disk[a.binPath] == a.sha256.value
  {
    var row := w.db.rows[k];
    OneApproved(w.db.rows, k);
    Agrees(w, k);
    CasLine(w.db, k, Write(Deploying, deployStarted := true), None, 0);
    a := row.(status := Deploying);
    ClaimLog(w.db, row.txId);
    hide Inv, Lines, Cas, FirstApproved, BinPath, Step, Execute;
    ClaimStep(w, 0, YES);
    v := Step(w, Run(0, YES));
    ByAction(w, Run(0, YES));
  }

  /** The claimed binary is found to be what was built. */
  lemma Verifies(w: World, a: Row, lines: seq<Line>, link: string) returns (v: World)
    requires Sound(w) && Scene(w, Deploy(LogStart(a)), lines, link)
    requires a.sha256.Some? && a.binPath in w.disk && w.disk[a.binPath] == a.sha256.value
    ensures Leads(w, v) && Scene(v, Deploy(SwitchTo(a)), lines, link)
  {
    hide Inv, Lines, NullIfEmpty, Step, Execute;
    LogStartStep(w, 0, YES, a);
    var u := Step(w, Run(0, YES));
    ByAction(w, Run(0, YES));
    DeployStep(u, 0, YES, Verify(a));
    v := Step(u, Run(0, YES));
    ByAction(u, Run(0, YES));
    Onward(w, u, v);
  }

  lemma ClaimLog(db: Db, tx: string)
    ensures Cas(db, tx, Approved, Write(Deploying, deployStarted := true), None, 0).log == db.log
  {
  }

  lemma OneApproved(rows: seq<Row>, k: nat)
    requires k < |rows| && rows[k].status.Approved?
    requires forall j :: 0 <= j < |rows| && Lines(rows)[j].status.Approved? ==> j == k
    ensures FirstApproved(rows) == Some(k)
  {
    var r := FirstApproved(rows);
    assert r.Some?;
    assert Lines(rows)[r.value].status.Approved?;
  }

  /** An untouched binary has the recorded digest. */
  lemma Agrees(w: World, k: nat)
    requires Sound(w) && k < |w.db.rows| && w.db.rows[k].status.Approved?
    ensures var row := w.db.rows[k];
            && row.binPath == BinPath(w.root, row.txId) && row.sha256.Some?
            && row.binPath in w.disk && w.disk[row.binPath] == row.sha256.value
  {
    assert RowOk(w, 0) && RowOk(w, k);
  }

  lemma Switches(w: World, a: Row, lines: seq<Line>, link: string) returns (v: World)
    requires Sound(w) && Scene(w, Deploy(SwitchTo(a)), lines, link)
    ensures Leads(w, v) && Scene(v, Deploy(MarkDeployed(a)), lines, a.binPath)
  {
    hide Inv, Lines;
    DeployStep(w, 0, YES, SwitchTo(a));
    v := Step(w, Run(0, YES));
    ByAction(w, Run(0, YES));
  }

  lemma Marks(w: World, a: Row, k: nat, lines: seq<Line>, link: string) returns (v: World)
    requires Sound(w) && Scene(w, Deploy(MarkDeployed(a)), lines, link)
    requires k < |lines| && lines[k].txId == a.txId && lines[k].status.Deploying?
    ensures Leads(w, v) && Scene(v, Main(Start), Marked(lines, k, DeployedUnstable), link)
  {
    CasLine(w.db, k, Write(DeployedUnstable, deployFinished := true), None, 0);
    hide Inv, Lines, Cas, Matches;
    var m := MarkAlone(w, 0, YES, a);
    v := Alone(w, 0, YES, m);
    ByAlone(w, 0, YES, m);
  }

  // ------------------------------------------------------------------ episodes

  /** Nothing is pending or approved: from the loop head to the worker. */
  lemma ToWorker(w: World, lines: seq<Line>, link: string) returns (v: World)
    requires Sound(w) && Scene(w, Main(Head), lines, link) && NoneIs(lines, RollbackPending) && NoneIs(lines, Approved)
    ensures Leads(w, v) && Scene(v, Main(Start), lines, link)
  {
    hide Inv, Scene, Execute, NoneIs;
    var u := PassesHead(w, lines, link);
    v := PassesClaim(u, lines, link);
    Onward(w, u, v);
  }

  /** A new artifact is staged and approved, and the worker exits. */
  lemma Releases(w: World, tx: string, k: nat, lines: seq<Line>, link: string) returns (v: World)
    requires Sound(w) && Scene(w, Main(Start), lines, link) && NoneIs(lines, RollbackPending)
    requires IsTxId(tx) && (forall j :: 0 <= j < |lines| ==> lines[j].txId != tx)
    requires Newest(lines, k) && lines[k].status.Promoted?
    ensures Leads(w, v) && Scene(v, Deploy(Claim), lines + [Line(tx, lines[k].txId, Approved)], link)
  {
    hide Inv, Session, Scene, Execute, IsTxId;
    var w1, n := Open(w, lines, link);
    var w2 := Stage(w1, n, tx, k, lines, link);
    Onward(w, w1, w2);
    var staged := lines + [Line(tx, lines[k].txId, Staged)];
    var w3 := Approves(w2, n, |lines|, staged, link);
    Onward(w, w2, w3);
    var approved := lines + [Line(tx, lines[k].txId, Approved)];
    assert Marked(staged, |lines|, Approved) == approved;
    var w4 := Close(w3, n, false, approved, link);
    Onward(w, w3, w4);
    v := PassesHead(w4, approved, link);
    Onward(w, w4, v);
  }

  /** The approved artifact is deployed. */
  lemma Deploys(w: World, k: nat, lines: seq<Line>, link: string) returns (v: World)
    requires Sound(w) && Scene(w, Deploy(Claim), lines, link)
    requires k < |lines| && lines[k].status.Approved?
    requires forall j :: 0 <= j < |lines| && lines[j].status.Approved? ==> j == k
    ensures Leads(w, v) && Scene(v, Main(Start), Marked(lines, k, DeployedUnstable), BinPath(w.root, lines[k].txId))
  {
    hide Inv, Scene, Execute, BinPath, Step, Lines;
    var u, a := Claims(w, k, lines, link);
    var w1 := Verifies(u, a, Marked(lines, k, Deploying), link);
    Onward(w, u, w1);
    var w2 := Switches(w1, a, Marked(lines, k, Deploying), link);
    Onward(w, w1, w2);
    v := Marks(w2, a, k, Marked(lines, k, Deploying), a.binPath);
    Onward(w, w2, v);
    assert Marked(Marked(lines, k, Deploying), k, DeployedUnstable) == Marked(lines, k, DeployedUnstable);
  }

  /** The deployed artifact runs long enough to be promoted. */
  lemma Lasts(w: World, k: nat, lines: seq<Line>, link: string) returns (v: World)
    requires Sound(w) && Scene(w, Main(Start), lines, link)
    requires Newest(lines, k) && lines[k].status.DeployedUnstable?
    requires NoneIs(lines, RollbackPending) && NoneIs(lines, Approved)
    ensures Leads(w, v) && Scene(v, Main(Start), Marked(lines, k, Promoted), link)
  {
    hide Inv, Session, Scene, Execute;
    var w1, n := Open(w, lines, link);
    var w2 := Close(w1, n, true, lines, link);
    Onward(w, w1, w2);
    var w3 := Promotes(w2, k, lines, link);
    Onward(w, w2, w3);
    v := ToWorker(w3, Marked(lines, k, Promoted), link);
    Onward(w, w3, v);
  }

  /** A user asks for a rollback, and the worker exits. */
  lemma IsRecalled(w: World, k: nat, lines: seq<Line>, link: string) returns (v: World)
    requires Sound(w) && Scene(w, Main(Start), lines, link) && 0 < k < |lines|
    requires lines[k].status.DeployedUnstable? || lines[k].status.Promoted?
    ensures Leads(w, v) && Scene(v, Main(Head), Marked(lines, k, RollbackPending), link)
  {
    hide Inv, Session, Scene, Execute;
    var w1, n := Open(w, lines, link);
    var w2 := Requests(w1, n, k, lines, link);
    Onward(w, w1, w2);
    v := Close(w2, n, false, Marked(lines, k, RollbackPending), link);
    Onward(w, w2, v);
  }

  // ----------------------------------------------------------------- the runs

  lemma Chosen(w0: World, v: World) returns (acts: seq<Action>)
    requires Leads(Step(w0, START), v)
    ensures NoStarts(acts) && Execute(w0, [START] + acts) == v
  {
    hide Step;
    acts :| NoStarts(acts) && Execute(Step(w0, START), acts) == v;
    ExecuteOne(w0, START);
    ExecuteConcat(w0, [START], acts);
  }

  lemma Continued(w0: World, first: seq<Action>, u: World, v: World) returns (acts: seq<Action>)
    requires Execute(w0, first) == u && Leads(u, v)
    ensures NoStarts(acts) && Execute(w0, first + acts) == v
  {
    hide Execute;
    acts :| NoStarts(acts) && Execute(u, acts) == v;
    ExecuteConcat(w0, first, acts);
  }

  /** The first artifact is approved and about to be claimed. */
  lemma FirstApproval(w0: World, tx: string) returns (v: World)
    requires Initial(w0) && IsTxId(tx) && tx != BOOTSTRAP
    ensures Leads(Step(w0, START), v)
    ensures Scene(v, Deploy(Claim), [BOOT, Line(tx, BOOTSTRAP, Approved)], BinPath(w0.root, BOOTSTRAP))
  {
    hide Initial, Inv, Scene, Execute, BinPath, Step, IsTxId;
    var link := BinPath(w0.root, BOOTSTRAP);
    var w1 := Launch(w0);
    v := Releases(w1, tx, 0, [BOOT], link);
    Onward(Step(w0, START), w1, v);
    assert [BOOT] + [Line(tx, BOOTSTRAP, Approved)] == [BOOT, Line(tx, BOOTSTRAP, Approved)];
  }

  /** The first artifact is claimed, verified, and the link about to be switched to it. */
  lemma FirstDeployment(w0: World, tx: string) returns (v: World, a: Row)
    requires Initial(w0) && IsTxId(tx) && tx != BOOTSTRAP
    ensures Leads(Step(w0, START), v) && a.binPath == BinPath(w0.root, tx)
    ensures Scene(v, Deploy(SwitchTo(a)), [BOOT, Line(tx, BOOTSTRAP, Deploying)], BinPath(w0.root, BOOTSTRAP))
  {
    hide Initial, Inv, Scene, Execute, BinPath, Step, IsTxId;
    RootStays(w0, START);
    var link := BinPath(w0.root, BOOTSTRAP);
    var lines := [BOOT, Line(tx, BOOTSTRAP, Approved)];
    var w1 := FirstApproval(w0, tx);
    var w2;
    w2, a := Claims(w1, 1, lines, link);
    Onward(Step(w0, START), w1, w2);
    v := Verifies(w2, a, Marked(lines, 1, Deploying), link);
    Onward(Step(w0, START), w2, v);
    assert Marked(lines, 1, Deploying) == [BOOT, Line(tx, BOOTSTRAP, Deploying)];
  }

  lemma CleanedLines(rows: seq<Row>, tx: string)
    requires Lines(rows) == [BOOT, Line(tx, BOOTSTRAP, Deploying)]
    ensures Lines(Cleaned(rows, 0)) == [BOOT, Line(tx, BOOTSTRAP, DeployFailed)]
  {
    var rows' := Cleaned(rows, 0);
    assert Lines(rows)[0] == BOOT && Lines(rows)[1] == Line(tx, BOOTSTRAP, Deploying);
    assert rows'[0] == CleanedRow(rows[0], 0) && rows'[1] == CleanedRow(rows[1], 0);
    assert Lines(rows')[0] == BOOT && Lines(rows')[1] == Line(tx, BOOTSTRAP, DeployFailed);
  }

  lemma ActiveLine(w: World, k: nat)
    requires Inv(w) && k < |w.db.rows| && w.link == BinPath(w.root, w.db.rows[k].txId)
    ensures ActiveIs(w, w.db.rows[k].status)
  {
    assert RowOk(w, k);
  }

  /**
   Container starts alone are not enough: after a kill between the switch and the mark, a supervisor that is
   started without its container finds the link where it was, and its cleanup fails the active artifact.
   */
  lemma LoneStartRunsFailed(w0: World, tx: string) returns (first: seq<Action>, rest: seq<Action>)
    requires Initial(w0) && IsTxId(tx) && tx != BOOTSTRAP
    ensures NoStarts(first) && NoStarts(rest)
    ensures var w := Execute(w0, [START] + first + [Kill(0), StartSupervisor] + rest);
            ActiveIs(w, DeployFailed) && w.link == BinPath(w0.root, tx)
  {
    hide Initial, Inv, Execute, BinPath, Step, IsTxId, Lines, ActiveIs, Cleaned, LatestPromotedTx;
    RootStays(w0, START);
    var lines := [BOOT, Line(tx, BOOTSTRAP, Deploying)];
    var w1, a := FirstDeployment(w0, tx);
    var w2 := Switches(w1, a, lines, BinPath(w0.root, BOOTSTRAP));
    Onward(Step(w0, START), w1, w2);
    first := Chosen(w0, w2);
    KillAndStart(w2, 0, StartSupervisor);
    SoundStep(w2, Kill(0));
    SoundStep(Step(w2, Kill(0)), StartSupervisor);
    ExecuteThen(w0, [START] + first, Kill(0));
    ExecuteThen(w0, [START] + first + [Kill(0)], StartSupervisor);
    assert [START] + first + [Kill(0)] + [StartSupervisor] == [START] + first + [Kill(0), StartSupervisor];
    var w3 := Step(Step(w2, Kill(0)), StartSupervisor);
    PromotedThere(w3);
    var k := StartupAlone(w3, |w2.procs|, YES);
    var w4 := Alone(w3, |w2.procs|, YES, k);
    ByAlone(w3, |w2.procs|, YES, k);
    rest := Continued(w0, [START] + first + [Kill(0), StartSupervisor], w3, w4);
    CleanedLines(w2.db.rows, tx);
    FailedLine(w4, tx);
  }

  lemma FailedLine(w: World, tx: string)
    requires Inv(w) && Lines(w.db.rows) == [BOOT, Line(tx, BOOTSTRAP, DeployFailed)] && w.link == BinPath(w.root, tx)
    ensures ActiveIs(w, DeployFailed)
  {
    assert Lines(w.db.rows)[1].txId == tx && Lines(w.db.rows)[1].status == DeployFailed;
    ActiveLine(w, 1);
  }

  /**
   One supervisor at a time is needed too: the cleanup of a second one fails the deployment of the first,
   which then switches to it.
   */
  lemma SecondSupervisorRunsFailed(w0: World, tx: string) returns (first: seq<Action>, rest: seq<Action>)
    requires Initial(w0) && IsTxId(tx) && tx != BOOTSTRAP
    ensures NoStarts(first) && NoStarts(rest)
    ensures var w := Execute(w0, [START] + first + [START] + rest);
            ActiveIs(w, DeployFailed) && w.link == BinPath(w0.root, tx)
  {
    hide Initial, Inv, Execute, BinPath, Step, IsTxId, Lines, ActiveIs, Cleaned, LatestPromotedTx;
    RootStays(w0, START);
    var lines := [BOOT, Line(tx, BOOTSTRAP, Deploying)];
    var w1, a := FirstDeployment(w0, tx);
    first := Chosen(w0, w1);
    SoundStep(w1, START);
    SecondStart(w1);
    ExecuteThen(w0, [START] + first, START);
    var w2 := Step(w1, START);
    PromotedThere(w2);
    var n := |w1.procs|;
    var k := StartupAlone(w2, n, YES);
    var w3 := Alone(w2, n, YES, k);
    ByAlone(w2, n, YES, k);
    CleanedLines(w1.db.rows, tx);
    var w4 := Switches(w3, a, [BOOT, Line(tx, BOOTSTRAP, DeployFailed)], w3.link);
    Onward(w2, w3, w4);
    rest := Continued(w0, [START] + first + [START], w2, w4);
    FailedLine(w4, tx);
  }

  lemma SecondStart(w: World)
    ensures Step(w, START).procs == w.procs + [Supervisor(Main(Ensure))] && Step(w, START).db == w.db
  {
  }

  /** A status can change without a log entry: the claim of the first artifact ever approved. */
  lemma ClaimIsNotLogged(w0: World, tx: string) returns (acts: seq<Action>, act: Action)
    requires Initial(w0) && IsTxId(tx) && tx != BOOTSTRAP
    ensures var w, w' := Execute(w0, acts), Step(Execute(w0, acts), act);
            && Lines(w.db.rows) == [BOOT, Line(tx, BOOTSTRAP, Approved)]
            && Lines(w'.db.rows) == [BOOT, Line(tx, BOOTSTRAP, Deploying)]
            && w'.db.log == w.db.log
  {
    hide Initial, Inv, Execute, BinPath, Step, IsTxId, Lines;
    RootStays(w0, START);
    var link := BinPath(w0.root, BOOTSTRAP);
    var lines := [BOOT, Line(tx, BOOTSTRAP, Approved)];
    var w := FirstApproval(w0, tx);
    var rest := Chosen(w0, w);
    var v, a := Claims(w, 1, lines, link);
    acts, act := [START] + rest, Run(0, YES);
    assert Marked(lines, 1, Deploying) == [BOOT, Line(tx, BOOTSTRAP, Deploying)];
  }

  /** The first artifact is deployed. */
  lemma FirstRelease(w0: World, tx: string) returns (v: World)
    requires Initial(w0) && IsTxId(tx) && tx != BOOTSTRAP
    ensures Leads(Step(w0, START), v)
    ensures Scene(v, Main(Start), [BOOT, Line(tx, BOOTSTRAP, DeployedUnstable)], BinPath(w0.root, tx))
  {
    hide Initial, Inv, Scene, Execute, BinPath, Step, IsTxId;
    RootStays(w0, START);
    var w1 := FirstApproval(w0, tx);
    v := Deploys(w1, 1, [BOOT, Line(tx, BOOTSTRAP, Approved)], BinPath(w0.root, BOOTSTRAP));
    Onward(Step(w0, START), w1, v);
    assert Marked([BOOT, Line(tx, BOOTSTRAP, Approved)], 1, DeployedUnstable)
           == [BOOT, Line(tx, BOOTSTRAP, DeployedUnstable)];
  }

  /** The first artifact is deployed and promoted. */
  lemma FirstPromotion(w0: World, tx: string) returns (v: World)
    requires Initial(w0) && IsTxId(tx) && tx != BOOTSTRAP
    ensures Leads(Step(w0, START), v)
    ensures Scene(v, Main(Start), [BOOT, Line(tx, BOOTSTRAP, Promoted)], BinPath(w0.root, tx))
  {
    hide Initial, Inv, Scene, Execute, BinPath, Step, IsTxId;
    RootStays(w0, START);
    var w2 := FirstRelease(w0, tx);
    var lines := [BOOT, Line(tx, BOOTSTRAP, DeployedUnstable)];
    v := Lasts(w2, 1, lines, BinPath(w0.root, tx));
    Onward(Step(w0, START), w2, v);
    assert Marked(lines, 1, Promoted) == [BOOT, Line(tx, BOOTSTRAP, Promoted)];
  }

  lemma WatcherStep(w: World, j: nat, pc: WatcherPc)
    requires At(w, j, Watcher(pc)) && j != 0 && pc != Timer(true)
    ensures var e := NextWatcher(w, pc);
            var w' := Step(w, Run(j, YES));
            && w'.procs == w.procs[j := e.next]
            && w'.db == Apply(w, e.stmt, 0).db && w'.link == Apply(w, e.stmt, 0).link
  {
    hide Apply, Matches, LatestWithStatus;
    OneStep(w, j, YES);
  }

  /** The watcher's timer fires while the worker runs, and it reads the deployed artifact. */
  lemma Fires(w: World, n: nat, k: nat, lines: seq<Line>, link: string) returns (v: World)
    requires Sound(w) && Session(w, n, lines, link) && At(w, n + 1, Watcher(Timer(false)))
    requires Newest(lines, k) && lines[k].status.DeployedUnstable?
    ensures Leads(w, v) && Session(v, n, lines, link) && v.db == w.db
    ensures At(v, n + 1, Watcher(AutoPromote(MarkPromoted(w.db.rows[k]))))
  {
    NewestLine(w.db.rows, k);
    hide Inv, Lines, LatestWithStatus, Step, Execute, Newest;
    WatcherStep(w, n + 1, Timer(false));
    var u := Step(w, Run(n + 1, YES));
    ByAction(w, Run(n + 1, YES));
    WatcherStep(u, n + 1, AutoPromote(ReadDeployed));
    v := Step(u, Run(n + 1, YES));
    ByAction(u, Run(n + 1, YES));
    Onward(w, u, v);
  }

  /** The watcher promotes the artifact it has read. */
  lemma PromotesFromWatcher(w: World, n: nat, k: nat, lines: seq<Line>, link: string) returns (v: World)
    requires Sound(w) && Session(w, n, lines, link) && k < |lines| && lines[k].status.DeployedUnstable?
    requires At(w, n + 1, Watcher(AutoPromote(MarkPromoted(w.db.rows[k]))))
    ensures Leads(w, v) && Session(v, n, Marked(lines, k, Promoted), link)
  {
    CasLine(w.db, k, TransitionWrite(Promoted, ""), None, 0);
    hide Inv, Lines, Cas, TransitionWrite, Step, Execute, Matches;
    WatcherStep(w, n + 1, AutoPromote(MarkPromoted(w.db.rows[k])));
    v := Step(w, Run(n + 1, YES));
    ByAction(w, Run(n + 1, YES));
  }

  /** Promotion does not wait for the worker to exit: the first artifact deployed is promoted while it runs. */
  lemma PromotedWhileRunning(w0: World, tx: string) returns (acts: seq<Action>, rest: seq<Action>, n: nat)
    requires Initial(w0) && IsTxId(tx) && tx != BOOTSTRAP
    ensures Session(Execute(w0, acts), n, [BOOT, Line(tx, BOOTSTRAP, DeployedUnstable)], BinPath(w0.root, tx))
    ensures Session(Execute(w0, acts + rest), n, [BOOT, Line(tx, BOOTSTRAP, Promoted)], BinPath(w0.root, tx))
  {
    hide Initial, Inv, Execute, BinPath, Step, IsTxId, Lines, Session, Scene;
    var lines := [BOOT, Line(tx, BOOTSTRAP, DeployedUnstable)];
    var u := FirstRelease(w0, tx);
    var w;
    w, n := Open(u, lines, BinPath(w0.root, tx));
    Onward(Step(w0, START), u, w);
    var first := Chosen(w0, w);
    acts := [START] + first;
    var w' := Fires(w, n, 1, lines, BinPath(w0.root, tx));
    var v := PromotesFromWatcher(w', n, 1, lines, BinPath(w0.root, tx));
    Onward(w, w', v);
    rest := Continued(w0, acts, w, v);
    assert Marked(lines, 1, Promoted) == [BOOT, Line(tx, BOOTSTRAP, Promoted)];
  }

  /** `promoted` can be left: the first artifact ever promoted is recalled by the user. */
  lemma PromotedIsLeft(w0: World, tx: string) returns (acts: seq<Action>, rest: seq<Action>)
    requires Initial(w0) && IsTxId(tx) && tx != BOOTSTRAP
    ensures Lines(Execute(w0, acts).db.rows) == [BOOT, Line(tx, BOOTSTRAP, Promoted)]
    ensures Lines(Execute(w0, acts + rest).db.rows) == [BOOT, Line(tx, BOOTSTRAP, RollbackPending)]
  {
    hide Initial, Inv, Execute, BinPath, Step, IsTxId, Lines;
    RootStays(w0, START);
    var lines := [BOOT, Line(tx, BOOTSTRAP, Promoted)];
    var w := FirstPromotion(w0, tx);
    var first := Chosen(w0, w);
    acts := [START] + first;
    var v := IsRecalled(w, 1, lines, BinPath(w0.root, tx));
    rest := Continued(w0, acts, w, v);
    assert Marked(lines, 1, RollbackPending) == [BOOT, Line(tx, BOOTSTRAP, RollbackPending)];
  }

  /** Two artifacts, the second built on the first and deployed, and the first rolled back. */
  lemma BaseRolledBack(w0: World, a: string, b: string) returns (v: World)
    requires Initial(w0) && IsTxId(a) && IsTxId(b) && a != BOOTSTRAP && b != BOOTSTRAP && a != b
    ensures Leads(Step(w0, START), v)
    ensures Scene(v, Main(Start), [BOOT, Line(a, BOOTSTRAP, RolledBack), Line(b, a, DeployedUnstable)],
                  BinPath(w0.root, BOOTSTRAP))
  {
    hide Initial, Inv, Scene, Execute, BinPath, Step, IsTxId;
    RootStays(w0, START);
    var u := Step(w0, START);
    var w1 := FirstPromotion(w0, a);
    var l1 := [BOOT, Line(a, BOOTSTRAP, Promoted)];
    var w2 := Releases(w1, b, 1, l1, BinPath(w0.root, a));
    Onward(u, w1, w2);
    var l2 := l1 + [Line(b, a, Approved)];
    var w3 := Deploys(w2, 2, l2, BinPath(w0.root, a));
    Onward(u, w2, w3);
    var l3 := [BOOT, Line(a, BOOTSTRAP, Promoted), Line(b, a, DeployedUnstable)];
    assert Marked(l2, 2, DeployedUnstable) == l3;
    var w4 := IsRecalled(w3, 1, l3, BinPath(w0.root, b));
    Onward(u, w3, w4);
    var l4 := [BOOT, Line(a, BOOTSTRAP, RollbackPending), Line(b, a, DeployedUnstable)];
    assert Marked(l3, 1, RollbackPending) == l4;
    var w5 := RollsBack(w4, 1, l4, BinPath(w0.root, b));
    Onward(u, w4, w5);
    var l5 := [BOOT, Line(a, BOOTSTRAP, RolledBack), Line(b, a, DeployedUnstable)];
    assert Marked(l4, 1, RolledBack) == l5;
    v := ToWorker(w5, l5, BinPath(w0.root, BOOTSTRAP));
    Onward(u, w5, v);
  }

  /**
   A drain can end at an artifact that has been rolled back: of two promoted or deployed artifacts, one the
   base of the other, the base is recalled first.
   */
  lemma DrainEndsRolledBack(w0: World, a: string, b: string) returns (acts: seq<Action>, rest: seq<Action>)
    requires Initial(w0) && IsTxId(a) && IsTxId(b) && a != BOOTSTRAP && b != BOOTSTRAP && a != b
    ensures var w, v := Execute(w0, acts), Execute(w0, acts + rest);
            && At(w, 0, Supervisor(Main(Head))) && At(v, 0, Supervisor(Main(Head)))
            && Lines(w.db.rows) == [BOOT, Line(a, BOOTSTRAP, RolledBack), Line(b, a, RollbackPending)]
            && Lines(v.db.rows) == [BOOT, Line(a, BOOTSTRAP, RolledBack), Line(b, a, RolledBack)]
            && !ActiveIs(w, RolledBack) && ActiveIs(v, RolledBack) && v.link == BinPath(w0.root, a)
  {
    hide Initial, Inv, Execute, BinPath, Step, IsTxId, Lines, ActiveIs;
    RootStays(w0, START);
    var u := BaseRolledBack(w0, a, b);
    var link := BinPath(w0.root, BOOTSTRAP);
    var l1 := [BOOT, Line(a, BOOTSTRAP, RolledBack), Line(b, a, DeployedUnstable)];
    var w := IsRecalled(u, 2, l1, link);
    Onward(Step(w0, START), u, w);
    var l2 := [BOOT, Line(a, BOOTSTRAP, RolledBack), Line(b, a, RollbackPending)];
    assert Marked(l1, 2, RollbackPending) == l2;
    var first := Chosen(w0, w);
    acts := [START] + first;
    var v := RollsBack(w, 2, l2, link);
    rest := Continued(w0, acts, w, v);
    assert Marked(l2, 2, RolledBack) == [BOOT, Line(a, BOOTSTRAP, RolledBack), Line(b, a, RolledBack)];
    BootstrapRuns(w);
    RolledBackLine(v, a, b);
  }

  lemma BootstrapRuns(w: World)
    requires Inv(w) && w.link == BinPath(w.root, BOOTSTRAP)
    ensures !ActiveIs(w, RolledBack)
  {
    BootstrapRow(w);
    hide Inv, BinPath;
    OnlyActive(w, 0);
  }

  lemma RolledBackLine(w: World, a: string, b: string)
    requires Inv(w) && Lines(w.db.rows) == [BOOT, Line(a, BOOTSTRAP, RolledBack), Line(b, a, RolledBack)]
    requires w.link == BinPath(w.root, a)
    ensures ActiveIs(w, RolledBack)
  {
    assert Lines(w.db.rows)[1].txId == a && Lines(w.db.rows)[1].status == RolledBack;
    ActiveLine(w, 1);
  }
}

/**
 The commands of module UpdatePipeline are the machine's worker left alone: for every outcome of the
 commands and files, the machine has steps from the entry of the command to the return that leave the
 same table and log.
 */
module PipelineRefinement {
  import opened Options
  import opened ArtifactStatus
  import opened ArtifactTable
  import opened UpdateProtocol
  import opened UpdateInvariant
  import opened UpdateRefinement
  import opened UpdatePipeline

  /** Steps of process i in a row, one for each answer from outside. */
  function Fed(w: World, i: nat, answers: seq<Choice>): World
    decreases |answers|
  {
    if answers == [] then w else Fed(Step(w, Run(i, answers[0])), i, answers[1..])
  }

  lemma {:induction false} FedConcat(w: World, i: nat, a: seq<Choice>, b: seq<Choice>)
    ensures Fed(w, i, a + b) == Fed(Fed(w, i, a), i, b)
    decreases |a|
  {
    hide Step;
    if a == [] {
      assert a + b == b;
    } else {
      assert (a + b)[1..] == a[1..] + b;
      FedConcat(Step(w, Run(i, a[0])), i, a[1..], b);
    }
  }

  function Answer(ok: bool, t: Tools, now: int): Choice {
    Choice(ok, now, if t.digest.Some? then t.digest.value else seq(64, _ => '0'), t.message, StableRun, NoCommand)
  }

  /** The answer on which the build command writes its output. */
  function Writes(t: Tools, now: int): Choice {
    Answer(true, t, now).(verdict := ShortRun)
  }

  /** The worker is at a place of the pipeline, over a given table, log, link and artifact root. */
  predicate Stands(w: World, i: nat, p: Proc, db: Db, link: string, root: string) {
    At(w, i, p) && w.db == db && w.link == link && w.root == root
  }

  lemma StageStep(w: World, i: nat, c: Choice, tx: string, pc: StagePc)
    requires At(w, i, Worker(Staging(tx, pc)))
    ensures var e := NextStage(w, tx, pc, c);
            var v := Apply(w, e.stmt, c.now);
            var w' := Step(w, Run(i, c));
            Stands(w', i, e.next, v.db, v.link, v.root) && w'.disk == v.disk && Fed(w, i, [c]) == w'
  {
    hide Matches, IndexOf, Insert, Cas, WithMetadata, Logged;
    OneStep(w, i, c);
    assert [c][1..] == [];
  }

  /** A transition of the new row that succeeds. */
  lemma AdvanceStep(w: World, i: nat, c: Choice, tx: string, pc: StagePc, rows: seq<Row>, row: Row, log: seq<Event>,
                    to: Status, lastError: string, event: Option<Kind>, next: Proc)
    requires At(w, i, Worker(Staging(tx, pc))) && Tip(w.db, rows, row, log) && row.txId == tx
    requires NextStage(w, tx, pc, c).stmt == Update(tx, row.status, TransitionWrite(to, lastError), event)
    requires Matches(w.db.rows, tx, row.status) ==> NextStage(w, tx, pc, c).next == next
    ensures var w' := Fed(w, i, [c]);
            && At(w', i, next) && w'.link == w.link && w'.root == w.root && w'.disk == w.disk
            && Tip(w'.db, rows, Moved(row, to, NullIfEmpty(lastError), c.now), Noted(log, event, tx))
  {
    StageStep(w, i, c, tx, pc);
    TipCas(w.db, rows, row, log, TransitionWrite(to, lastError), event, c.now);
    hide NextStage, Tip, Cas, Matches, NullIfEmpty;
  }

  /** From the lookup of the transaction to the insert of its row. */
  lemma InsertSteps(w: World, i: nat, tx: string, t: Tools, now: int)
    requires At(w, i, Worker(Staging(tx, LookupTx))) && IsTxId(tx) && IsAbsolute(w.root) && !Has(w.db.rows, tx)
    ensures var yes := Answer(true, t, now);
            var w' := Fed(Fed(Fed(w, i, [yes]), i, [yes]), i, [yes]);
            && At(w', i, Worker(Staging(tx, Enter))) && w'.link == w.link && w'.root == w.root
            && Tip(w'.db, w.db.rows,
                   NewRow(tx, NullIfEmpty(LatestPromotedTx(w.db.rows)), BinPath(w.root, tx), Created, now),
                   w.db.log + [Event(TxnCreatedEvent, tx)])
  {
    var yes := Answer(true, t, now);
    var base := LatestPromotedTx(w.db.rows);
    BinPathUntrimmed(w.root, tx);
    TipInsert(w.db, tx, base, BinPath(w.root, tx), now);
    hide BinPath, Tip, IsTxId, Has, NullIfEmpty, LatestPromotedTx, TransitionWrite, Fed, Insert;
    StageStep(w, i, yes, tx, LookupTx);
    var w1 := Fed(w, i, [yes]);
    StageStep(w1, i, yes, tx, ReadBase);
    var w2 := Fed(w1, i, [yes]);
    StageStep(w2, i, yes, tx, InsertRow(base));
  }

  /** Insert and enter building. */
  lemma BeginSteps(w: World, i: nat, tx: string, t: Tools, clock: nat -> int) returns (answers: seq<Choice>)
    requires At(w, i, Worker(Staging(tx, LookupTx))) && IsTxId(tx) && IsAbsolute(w.root) && !Has(w.db.rows, tx)
    ensures var w' := Fed(w, i, answers);
            && At(w', i, Worker(Staging(tx, Build))) && w'.link == w.link && w'.root == w.root
            && Tip(w'.db, w.db.rows, BuildingRow(tx, LatestPromotedTx(w.db.rows), BinPath(w.root, tx), clock),
                   w.db.log + [Event(TxnCreatedEvent, tx)] + [Event(BuildStartedEvent, tx)])
  {
    var yes, next := Answer(true, t, clock(0)), Answer(true, t, clock(1));
    var base := LatestPromotedTx(w.db.rows);
    EmptyIsNull();
    InsertSteps(w, i, tx, t, clock(0));
    hide BinPath, Tip, IsTxId, Has, NullIfEmpty, LatestPromotedTx, TransitionWrite, Fed, Matches;
    var w3 := Fed(Fed(Fed(w, i, [yes]), i, [yes]), i, [yes]);
    AdvanceStep(w3, i, next, tx, Enter,
                w.db.rows, NewRow(tx, NullIfEmpty(base), BinPath(w.root, tx), Created, clock(0)),
                w.db.log + [Event(TxnCreatedEvent, tx)], Building, "", Some(BuildStartedEvent),
                Worker(Staging(tx, Build)));
    FedConcat(w, i, [yes], [yes]);
    FedConcat(w, i, [yes] + [yes], [yes]);
    FedConcat(w, i, [yes] + [yes] + [yes], [next]);
    answers := [yes] + [yes] + [yes] + [next];
  }

  /** The build fails, or its file cannot be read: the pipeline ends. */
  lemma BuildFails(w: World, i: nat, tx: string, t: Tools, now: int, rows: seq<Row>, row: Row, log: seq<Event>)
      returns (answers: seq<Choice>)
    requires At(w, i, Worker(Staging(tx, Build)))
    requires Tip(w.db, rows, row, log) && row.txId == tx && row.status == Building
    requires !(t.built && t.digest.Some?)
    ensures var w' := Fed(w, i, answers);
            && At(w', i, Worker(Commanding(Idle))) && w'.link == w.link && w'.root == w.root
            && Tip(w'.db, rows, Moved(row, BuildFailed, NullIfEmpty(t.message), now),
                   if t.built then log else log + [Event(BuildFailedEvent, tx)])
  {
    hide Tip, NullIfEmpty, TransitionWrite, Fed, Matches, Step;
    var yes, no := Answer(true, t, now), Answer(false, t, now);
    BuildEnds(w, i, if t.built then yes else no, tx);
    if !t.built {
      AdvanceStep(Fed(w, i, [no]), i, no, tx, BuildFail, rows, row, log, BuildFailed, t.message, Some(BuildFailedEvent),
                  Worker(Commanding(Idle)));
      FedConcat(w, i, [no], [no]);
      answers := [no] + [no];
    } else {
      var w1 := Fed(w, i, [yes]);
      HashEnds(w1, i, no, tx);
      AdvanceStep(Fed(w1, i, [no]), i, no, tx, HashFail, rows, row, log, BuildFailed, t.message, None,
                  Worker(Commanding(Idle)));
      FedConcat(w, i, [yes], [no]);
      FedConcat(w, i, [yes] + [no], [no]);
      answers := [yes] + [no] + [no];
    }
  }

  /** The build command ends. */
  lemma BuildEnds(w: World, i: nat, c: Choice, tx: string)
    requires At(w, i, Worker(Staging(tx, Build))) && !c.verdict.ShortRun?
    ensures var w' := Fed(w, i, [c]);
            && Stands(w', i, Worker(Staging(tx, if c.ok then Hash else BuildFail)), w.db, w.link, w.root)
            && w'.disk == w.disk
  {
    hide Fed, Step;
    StageStep(w, i, c, tx, Build);
  }

  lemma WriteEffect(w: World, c: Choice, tx: string)
    requires c.verdict.ShortRun?
    ensures NextStage(w, tx, Build, c) == ToStage(WriteBinary(tx, c.digest), tx, Build)
    ensures Apply(w, WriteBinary(tx, c.digest), c.now) == w.(disk := w.disk[BinPath(w.root, tx) := c.digest])
  {
  }

  /** The build command writes its file. */
  lemma BuildWrites(w: World, i: nat, c: Choice, tx: string)
    requires At(w, i, Worker(Staging(tx, Build))) && c.verdict.ShortRun?
    ensures var w' := Fed(w, i, [c]);
            && Stands(w', i, Worker(Staging(tx, Build)), w.db, w.link, w.root)
            && BinPath(w.root, tx) in w'.disk && w'.disk[BinPath(w.root, tx)] == c.digest
  {
    WriteEffect(w, c, tx);
    hide Fed, Step, BinPath, NextStage, Apply;
    StageStep(w, i, c, tx, Build);
  }

  /** The built file is hashed, or cannot be read. */
  lemma HashEnds(w: World, i: nat, c: Choice, tx: string)
    requires At(w, i, Worker(Staging(tx, Hash)))
    ensures var bin := BinPath(w.root, tx);
            Stands(Fed(w, i, [c]), i,
                   Worker(Staging(tx, if c.ok && bin in w.disk then StoreMetadata(w.disk[bin]) else HashFail)),
                   w.db, w.link, w.root)
  {
    hide Fed, Step, BinPath;
    StageStep(w, i, c, tx, Hash);
  }

  /** The digest is recorded. */
  lemma DigestStored(w: World, i: nat, c: Choice, tx: string, sha: Digest)
    requires At(w, i, Worker(Staging(tx, StoreMetadata(sha))))
    ensures Stands(Fed(w, i, [c]), i, Worker(Staging(tx, LogBuilt)),
                   Db(WithMetadata(w.db.rows, tx, sha, c.now), w.db.log), w.link, w.root)
  {
    hide Fed, Step, WithMetadata;
    StageStep(w, i, c, tx, StoreMetadata(sha));
  }

  /** The build writes its file, which is hashed and recorded. */
  lemma BuildRecords(w: World, i: nat, tx: string, t: Tools, now: int, rows: seq<Row>, row: Row, log: seq<Event>)
      returns (answers: seq<Choice>)
    requires At(w, i, Worker(Staging(tx, Build)))
    requires Tip(w.db, rows, row, log) && row.txId == tx && row.status == Building
    requires t.built && t.digest.Some?
    ensures var w' := Fed(w, i, answers);
            && At(w', i, Worker(Staging(tx, LogBuilt))) && w'.link == w.link && w'.root == w.root
            && Tip(w'.db, rows, row.(sha256 := Some(t.digest.value), updatedAt := now), log)
  {
    TipMetadata(w.db, rows, row, log, t.digest.value, now);
    assert w.db.log == log;
    hide BinPath, Tip, NullIfEmpty, TransitionWrite, Fed, Matches, WithMetadata, Step;
    var writes, yes := Writes(t, now), Answer(true, t, now);
    BuildWrites(w, i, writes, tx);
    var w1 := Fed(w, i, [writes]);
    BuildEnds(w1, i, yes, tx);
    var w2 := Fed(w1, i, [yes]);
    HashEnds(w2, i, yes, tx);
    var w3 := Fed(w2, i, [yes]);
    DigestStored(w3, i, yes, tx, t.digest.value);
    FedConcat(w, i, [writes], [yes]);
    FedConcat(w, i, [writes] + [yes], [yes]);
    FedConcat(w, i, [writes] + [yes] + [yes], [yes]);
    answers := [writes] + [yes] + [yes] + [yes];
  }

  /** A stage that was passed: its log entry and the transition to the next one. */
  predicate Passing(at: StagePc, done: Kind, mid: StagePc, from: Status, to: Status, event: Kind, next: WorkerPc,
                    tx: string) {
    || (at == LogBuilt && done == BuildCompletedEvent && mid == ToTesting && from == Building
        && to == Testing && event == TestStartedEvent && next == Staging(tx, Test))
    || (at == LogTested && done == TestCompletedEvent && mid == ToSelfCheck && from == Testing
        && to == SelfChecking && event == SelfCheckStartedEvent && next == Staging(tx, SelfCheck))
    || (at == LogChecked && done == SelfCheckCompletedEvent && mid == ToStaged && from == SelfChecking
        && to == Staged && event == StagedEvent && next == Commanding(Idle))
  }

  lemma PassLogged(w: World, i: nat, c: Choice, tx: string, at: StagePc, done: Kind, mid: StagePc)
    requires At(w, i, Worker(Staging(tx, at)))
    requires
      || (at == LogBuilt && done == BuildCompletedEvent && mid == ToTesting)
      || (at == LogTested && done == TestCompletedEvent && mid == ToSelfCheck)
      || (at == LogChecked && done == SelfCheckCompletedEvent && mid == ToStaged)
    ensures Stands(Fed(w, i, [c]), i, Worker(Staging(tx, mid)), Logged(w.db, done, tx), w.link, w.root)
  {
    hide Fed, Step;
    StageStep(w, i, c, tx, at);
  }

  lemma PassStatement(w: World, c: Choice, tx: string, at: StagePc, done: Kind, mid: StagePc,
                      from: Status, to: Status, event: Kind, next: WorkerPc)
    requires Passing(at, done, mid, from, to, event, next, tx)
    ensures NextStage(w, tx, mid, c).stmt == Update(tx, from, TransitionWrite(to, ""), Some(event))
    ensures Matches(w.db.rows, tx, from) ==> NextStage(w, tx, mid, c).next == Worker(next)
  {
    hide Matches, TransitionWrite, Insert, Has, LatestPromotedTx, BinPath;
    match mid {
      case ToTesting =>
      case ToSelfCheck =>
      case ToStaged =>
    }
  }

  /** A log entry followed by the transition to the next stage. */
  lemma LogAndAdvance(w: World, i: nat, tx: string, t: Tools, now: int, rows: seq<Row>, row: Row, log: seq<Event>,
                      at: StagePc, done: Kind, mid: StagePc, to: Status, event: Kind, next: WorkerPc)
      returns (answers: seq<Choice>)
    requires At(w, i, Worker(Staging(tx, at))) && Tip(w.db, rows, row, log) && row.txId == tx
    requires Passing(at, done, mid, row.status, to, event, next, tx)
    ensures var w' := Fed(w, i, answers);
            && At(w', i, Worker(next)) && w'.link == w.link && w'.root == w.root
            && Tip(w'.db, rows, Moved(row, to, None, now), log + [Event(done, tx)] + [Event(event, tx)])
  {
    var yes := Answer(true, t, now);
    EmptyIsNull();
    PassLogged(w, i, yes, tx, at, done, mid);
    var w1 := Fed(w, i, [yes]);
    assert Tip(w1.db, rows, row, log + [Event(done, tx)]);
    hide BinPath, Tip, NullIfEmpty, TransitionWrite, Fed, Matches, NextStage, Passing;
    PassStatement(w1, yes, tx, at, done, mid, row.status, to, event, next);
    AdvanceStep(w1, i, yes, tx, mid, rows, row, log + [Event(done, tx)], to, "", Some(event), Worker(next));
    FedConcat(w, i, [yes], [yes]);
    answers := [yes] + [yes];
  }

  /** A command fails: the row is marked and the pipeline ends. */
  lemma CommandFails(w: World, i: nat, tx: string, t: Tools, now: int, rows: seq<Row>, row: Row, log: seq<Event>,
                     at: StagePc, mid: StagePc, to: Status, event: Kind) returns (answers: seq<Choice>)
    requires At(w, i, Worker(Staging(tx, at))) && Tip(w.db, rows, row, log) && row.txId == tx
    requires
      || (at == Test && mid == TestFail && row.status == Testing && to == TestFailed && event == TestFailedEvent)
      || (at == SelfCheck && mid == SelfCheckFail && row.status == SelfChecking && to == SelfCheckFailed
          && event == SelfCheckFailedEvent)
    ensures var w' := Fed(w, i, answers);
            && At(w', i, Worker(Commanding(Idle))) && w'.link == w.link && w'.root == w.root
            && Tip(w'.db, rows, Moved(row, to, NullIfEmpty(t.message), now), log + [Event(event, tx)])
  {
    hide BinPath, Tip, NullIfEmpty, TransitionWrite, Fed, Matches;
    var no := Answer(false, t, now);
    StageStep(w, i, no, tx, at);
    AdvanceStep(Fed(w, i, [no]), i, no, tx, mid, rows, row, log, to, t.message, Some(event), Worker(Commanding(Idle)));
    FedConcat(w, i, [no], [no]);
    answers := [no] + [no];
  }

  /** A command succeeds. */
  lemma CommandPasses(w: World, i: nat, tx: string, t: Tools, now: int, at: StagePc, next: StagePc)
    requires At(w, i, Worker(Staging(tx, at)))
    requires (at == Test && next == LogTested) || (at == SelfCheck && next == LogChecked)
    ensures var w' := Fed(w, i, [Answer(true, t, now)]);
            At(w', i, Worker(Staging(tx, next))) && w'.link == w.link && w'.root == w.root && w'.db == w.db
  {
    hide Fed;
    StageStep(w, i, Answer(true, t, now), tx, at);
  }

  /** From the end of the build to the end of the pipeline. */
  lemma TestSteps(w: World, i: nat, tx: string, t: Tools, clock: nat -> int, rows: seq<Row>, row: Row, log: seq<Event>)
      returns (answers: seq<Choice>)
    requires At(w, i, Worker(Staging(tx, Test))) && Tip(w.db, rows, row, log) && row.txId == tx && row.status == Testing
    ensures var w' := Fed(w, i, answers);
            && At(w', i, Worker(Commanding(Idle))) && w'.link == w.link && w'.root == w.root
            && Tip(w'.db, rows,
                   if !t.tested then Moved(row, TestFailed, NullIfEmpty(t.message), clock(4))
                   else if !t.checked then Moved(row, SelfCheckFailed, NullIfEmpty(t.message), clock(5))
                   else Moved(row, Staged, None, clock(5)),
                   if !t.tested then log + [Event(TestFailedEvent, tx)]
                   else log + [Event(TestCompletedEvent, tx)] + [Event(SelfCheckStartedEvent, tx)]
                        + if !t.checked then [Event(SelfCheckFailedEvent, tx)]
                          else [Event(SelfCheckCompletedEvent, tx)] + [Event(StagedEvent, tx)])
  {
    hide Tip, NullIfEmpty, Fed, Step;
    if !t.tested {
      answers := CommandFails(w, i, tx, t, clock(4), rows, row, log, Test, TestFail, TestFailed, TestFailedEvent);
      return;
    }
    var yes := [Answer(true, t, clock(4))];
    CommandPasses(w, i, tx, t, clock(4), Test, LogTested);
    var w1 := Fed(w, i, yes);
    var a := LogAndAdvance(w1, i, tx, t, clock(4), rows, row, log, LogTested, TestCompletedEvent, ToSelfCheck,
                           SelfChecking, SelfCheckStartedEvent, Staging(tx, SelfCheck));
    var w2 := Fed(w1, i, a);
    FedConcat(w, i, yes, a);
    var rest := CheckSteps(w2, i, tx, t, clock, rows, Moved(row, SelfChecking, None, clock(4)),
                           log + [Event(TestCompletedEvent, tx)] + [Event(SelfCheckStartedEvent, tx)]);
    FedConcat(w, i, yes + a, rest);
    answers := yes + a + rest;
  }

  lemma CheckSteps(w: World, i: nat, tx: string, t: Tools, clock: nat -> int, rows: seq<Row>, row: Row, log: seq<Event>)
      returns (answers: seq<Choice>)
    requires At(w, i, Worker(Staging(tx, SelfCheck)))
    requires Tip(w.db, rows, row, log) && row.txId == tx && row.status == SelfChecking
    ensures var w' := Fed(w, i, answers);
            && At(w', i, Worker(Commanding(Idle))) && w'.link == w.link && w'.root == w.root
            && Tip(w'.db, rows,
                   if !t.checked then Moved(row, SelfCheckFailed, NullIfEmpty(t.message), clock(5))
                   else Moved(row, Staged, None, clock(5)),
                   log + if !t.checked then [Event(SelfCheckFailedEvent, tx)]
                         else [Event(SelfCheckCompletedEvent, tx)] + [Event(StagedEvent, tx)])
  {
    hide Tip, NullIfEmpty, TransitionWrite, Fed, Step, Moved, At;
    if !t.checked {
      answers := CommandFails(w, i, tx, t, clock(5), rows, row, log,
                              SelfCheck, SelfCheckFail, SelfCheckFailed, SelfCheckFailedEvent);
      return;
    }
    var yes := [Answer(true, t, clock(5))];
    CommandPasses(w, i, tx, t, clock(5), SelfCheck, LogChecked);
    var a := LogAndAdvance(Fed(w, i, yes), i, tx, t, clock(5), rows, row, log, LogChecked, SelfCheckCompletedEvent,
                           ToStaged, Staged, StagedEvent, Commanding(Idle));
    FedConcat(w, i, yes, a);
    assert log + [Event(SelfCheckCompletedEvent, tx)] + [Event(StagedEvent, tx)]
           == log + ([Event(SelfCheckCompletedEvent, tx)] + [Event(StagedEvent, tx)]);
    answers := yes + a;
  }

  /** `update stage` for a new transaction: the machine's worker alone leaves what the pipeline leaves. */
  lemma StageAlone(w: World, i: nat, tx: string, t: Tools, clock: nat -> int) returns (answers: seq<Choice>)
    requires At(w, i, Worker(Staging(tx, LookupTx))) && IsTxId(tx) && IsAbsolute(w.root) && !Has(w.db.rows, tx)
    ensures var w' := Fed(w, i, answers);
            && At(w', i, Worker(Commanding(Idle))) && w'.link == w.link
            && w'.db == RunStaged(w.db, tx, BinPath(w.root, tx), t, clock)
  {
    var rows, base, bin := w.db.rows, LatestPromotedTx(w.db.rows), BinPath(w.root, tx);
    TraceEvents(t, tx, w.db.log);
    hide NullIfEmpty, Fed, Step, BinPath, LatestPromotedTx, Has, IsTxId;
    var a := BeginSteps(w, i, tx, t, clock);
    var w1 := Fed(w, i, a);
    var row := BuildingRow(tx, base, bin, clock);
    var log := w.db.log + [Event(TxnCreatedEvent, tx)] + [Event(BuildStartedEvent, tx)];
    if !(t.built && t.digest.Some?) {
      var b := BuildFails(w1, i, tx, t, clock(2), rows, row, log);
      FedConcat(w, i, a, b);
      answers := a + b;
    } else {
      var b := BuildSucceeds(w1, i, tx, t, clock, rows, row, log);
      FedConcat(w, i, a, b);
      answers := a + b;
    }
  }

  /** A build that succeeds, and everything after it. */
  lemma BuildSucceeds(w: World, i: nat, tx: string, t: Tools, clock: nat -> int,
                      rows: seq<Row>, row: Row, log: seq<Event>)
      returns (answers: seq<Choice>)
    requires At(w, i, Worker(Staging(tx, Build)))
    requires Tip(w.db, rows, row, log) && row.txId == tx && row.status == Building
    requires t.built && t.digest.Some?
    ensures var w' := Fed(w, i, answers);
            var tested := Moved(row, Testing, None, clock(3)).(sha256 := Some(t.digest.value));
            var built := log + [Event(BuildCompletedEvent, tx)] + [Event(TestStartedEvent, tx)];
            && At(w', i, Worker(Commanding(Idle))) && w'.link == w.link
            && Tip(w'.db, rows,
                   if !t.tested then Moved(tested, TestFailed, NullIfEmpty(t.message), clock(4))
                   else if !t.checked then Moved(tested, SelfCheckFailed, NullIfEmpty(t.message), clock(5))
                   else Moved(tested, Staged, None, clock(5)),
                   if !t.tested then built + [Event(TestFailedEvent, tx)]
                   else built + [Event(TestCompletedEvent, tx)] + [Event(SelfCheckStartedEvent, tx)]
                        + if !t.checked then [Event(SelfCheckFailedEvent, tx)]
                          else [Event(SelfCheckCompletedEvent, tx)] + [Event(StagedEvent, tx)])
  {
    hide Tip, NullIfEmpty, Fed, Step;
    var b := BuildRecords(w, i, tx, t, clock(2), rows, row, log);
    var w2 := Fed(w, i, b);
    var recorded := row.(sha256 := Some(t.digest.value), updatedAt := clock(2));
    var c := LogAndAdvance(w2, i, tx, t, clock(3), rows, recorded, log, LogBuilt, BuildCompletedEvent, ToTesting,
                           Testing, TestStartedEvent, Staging(tx, Test));
    FedConcat(w, i, b, c);
    var d := TestSteps(Fed(w2, i, c), i, tx, t, clock, rows, Moved(recorded, Testing, None, clock(3)),
                       log + [Event(BuildCompletedEvent, tx)] + [Event(TestStartedEvent, tx)]);
    FedConcat(w, i, b + c, d);
    answers := b + c + d;
  }

  /** `update stage` for a transaction that is known: nothing happens. */
  lemma StageRefused(w: World, i: nat, c: Choice, tx: string)
    requires At(w, i, Worker(Staging(tx, LookupTx))) && Has(w.db.rows, tx)
    ensures Stands(Step(w, Run(i, c)), i, Worker(Commanding(Idle)), w.db, w.link, w.root)
  {
    hide Has;
    StageStep(w, i, c, tx, LookupTx);
  }

  /** The artifact's directory cannot be made: nothing happens. */
  lemma StageUnprepared(w: World, i: nat, yes: Choice, no: Choice, tx: string)
    requires At(w, i, Worker(Staging(tx, LookupTx))) && !Has(w.db.rows, tx) && !no.ok
    ensures Stands(Step(Step(w, Run(i, yes)), Run(i, no)), i, Worker(Commanding(Idle)), w.db, w.link, w.root)
  {
    hide Has, LatestPromotedTx;
    StageStep(w, i, yes, tx, LookupTx);
    StageStep(Step(w, Run(i, yes)), i, no, tx, ReadBase);
  }

  // ----------------------------------------------------- the other commands

  lemma CommandStep(w: World, i: nat, c: Choice, pc: CommandPc)
    requires At(w, i, Worker(Commanding(pc)))
    ensures var e := NextCommand(w, pc, c);
            var v := Apply(w, e.stmt, c.now);
            Stands(Step(w, Run(i, c)), i, e.next, v.db, v.link, v.root)
  {
    hide Matches, IndexOf, Insert, Cas, WithMetadata, Logged, HasStatus;
    OneStep(w, i, c);
  }

  /** A worker without work takes a command in; one with a malformed transaction is dropped. */
  lemma CommandHeard(w: World, i: nat, c: Choice)
    requires At(w, i, Worker(Commanding(Idle)))
    ensures Stands(Step(w, Run(i, c)), i,
                   Worker(match c.command
                          case NoCommand => Commanding(Idle)
                          case UpdateStage(tx) => if IsTxId(tx) then Staging(tx, LookupTx) else Commanding(Idle)
                          case Approve(tx, chat) => Commanding(if IsTxId(tx) then ApproveLookup(tx, chat) else Idle)
                          case Cancel(tx) => Commanding(if IsTxId(tx) then CancelLookup(tx) else Idle)
                          case RollbackCmd(tx) => Commanding(if IsTxId(tx) then RollbackRead(tx) else Idle)),
                   w.db, w.link, w.root)
  {
    hide IsTxId;
    CommandStep(w, i, c, Idle);
  }

  /** `approve` alone: the compare-and-set of the command, in one step or two. */
  lemma ApproveAlone(w: World, i: nat, c: Choice, tx: string, chat: int) returns (n: nat)
    requires At(w, i, Worker(Commanding(ApproveLookup(tx, chat)))) && Unique(w.db.rows)
    ensures var w' := Alone(w, i, c, n);
            && At(w', i, Worker(Commanding(Idle))) && w'.link == w.link
            && w'.db == Cas(w.db, tx, Staged, Write(Approved, chat := Some(chat)), Some(ApprovedEvent), c.now)
  {
    OnlyRow(w.db.rows, tx, Staged);
    hide Step, UpdateWhere, IndexOf, Unique;
    CommandStep(w, i, c, ApproveLookup(tx, chat));
    assert Alone(w, i, c, 0) == w;
    AloneStep(w, i, c, 0);
    if !HasStatus(w.db.rows, tx, Staged) {
      return 1;
    }
    CommandStep(Alone(w, i, c, 1), i, c, ApproveUpdate(tx, chat));
    AloneStep(w, i, c, 1);
    return 2;
  }

  /** `cancel` alone. */
  lemma CancelAlone(w: World, i: nat, c: Choice, tx: string) returns (n: nat)
    requires At(w, i, Worker(Commanding(CancelLookup(tx)))) && Unique(w.db.rows)
    ensures var w' := Alone(w, i, c, n);
            && At(w', i, Worker(Commanding(Idle))) && w'.link == w.link
            && w'.db == Cas(w.db, tx, Staged, TransitionWrite(Cancelled, ""), Some(CancelledEvent), c.now)
  {
    OnlyRow(w.db.rows, tx, Staged);
    hide Step, UpdateWhere, IndexOf, Unique, TransitionWrite;
    CommandStep(w, i, c, CancelLookup(tx));
    assert Alone(w, i, c, 0) == w;
    AloneStep(w, i, c, 0);
    if !HasStatus(w.db.rows, tx, Staged) {
      return 1;
    }
    CommandStep(Alone(w, i, c, 1), i, c, CancelUpdate(tx));
    AloneStep(w, i, c, 1);
    return 2;
  }

  /** `rollback` alone: the compare-and-set of the command, if the artifact can be rolled back. */
  lemma RequestRollbackAlone(w: World, i: nat, c: Choice, tx: string) returns (n: nat)
    requires At(w, i, Worker(Commanding(RollbackRead(tx))))
    ensures var w' := Alone(w, i, c, n);
            && At(w', i, Worker(Commanding(Idle))) && w'.link == w.link
            && w'.db == if CanRollBack(w.db.rows, tx)
                        then Cas(w.db, tx, w.db.rows[IndexOf(w.db.rows, tx)].status,
                                 TransitionWrite(RollbackPending, ""), Some(RollbackRequestedEvent), c.now)
                        else w.db
  {
    hide Step, UpdateWhere, IndexOf, HasBase, TransitionWrite;
    CommandStep(w, i, c, RollbackRead(tx));
    assert Alone(w, i, c, 0) == w;
    AloneStep(w, i, c, 0);
    if !CanRollBack(w.db.rows, tx) {
      return 1;
    }
    var from := w.db.rows[IndexOf(w.db.rows, tx)].status;
    CommandStep(Alone(w, i, c, 1), i, c, RollbackRequest(tx, from));
    AloneStep(w, i, c, 1);
    return 2;
  }
}

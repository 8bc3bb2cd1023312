/** Every process meets its obligations at every place, so every action keeps the protocol invariant. */
module UpdateRuns {
  import opened Options
  import opened ArtifactStatus
  import opened ArtifactTable
  import opened UpdateProtocol
  import opened UpdateInvariant
  import ArtifactStore
  import Text

  // ------------------------------------------------- stability of what is known

  lemma SnapStable(w: World, w': World, a: Row)
    requires Grows(w, w') && Snap(w, a)
    ensures Snap(w', a) && IndexOf(w'.db.rows, a.txId) == IndexOf(w.db.rows, a.txId)
    ensures SnapReleased(w, a) ==> SnapReleased(w', a)
  {
    IndexStable(w, w', a.txId);
    var i := IndexOf(w.db.rows, a.txId);
    assert SameIdentity(w.db.rows[i], w'.db.rows[i]);
  }

  lemma OwnedStable(w: World, w': World, tx: string)
    requires Grows(w, w') && Owned(w, tx) && Spares(w, w', tx)
    ensures Owned(w', tx) && IndexOf(w'.db.rows, tx) == IndexOf(w.db.rows, tx)
  {
    IndexStable(w, w', tx);
  }

  lemma SealStable(w: World, w': World, tx: string)
    requires StoreOk(w) && Grows(w, w') && Owned(w, tx) && Spares(w, w', tx)
    requires Sealed(w, w.db.rows[IndexOf(w.db.rows, tx)])
    ensures Owned(w', tx) && Sealed(w', w'.db.rows[IndexOf(w'.db.rows, tx)])
  {
    OwnedStable(w, w', tx);
    var i := IndexOf(w.db.rows, tx);
    assert RowOk(w, i) && SameIdentity(w.db.rows[i], w'.db.rows[i]);
  }

  /** What a process knows stays true while another process runs. */
  lemma ProcStable(w: World, w': World, p: Proc)
    requires StoreOk(w) && ProcOk(w, p) && Grows(w, w')
    requires Owns(p).Some? ==> Spares(w, w', Owns(p).value)
    ensures ProcOk(w', p)
  {
    match p {
      case Supervisor(Main(CrashMark(a))) => SnapStable(w, w', a);
      case Supervisor(Rollback(Lookup(a), _)) => SnapStable(w, w', a);
      case Supervisor(Rollback(SwitchBack(a, target), _)) =>
        SnapStable(w, w', a);
        SnapStable(w, w', target);
      case Supervisor(Deploy(LogStart(a))) => SnapStable(w, w', a);
      case Supervisor(Deploy(Verify(a))) => SnapStable(w, w', a);
      case Supervisor(Deploy(SwitchTo(a))) => SnapStable(w, w', a);
      case Worker(Staging(tx, pc)) =>
        if OwningStage(pc) {
          OwnedStable(w, w', tx);
          if pc.LogBuilt? || pc.ToTesting? {
            SealStable(w, w', tx);
          }
        }
      case Orphan(tx) => OwnedStable(w, w', tx);
      case _ =>
    }
  }

  // ------------------------------------------------------ facts about the store

  /** Bootstrap is promoted, so there is always a promoted transaction to build on. */
  lemma SomePromoted(w: World)
    requires StoreOk(w)
    ensures LatestPromotedTx(w.db.rows) in w.promotedEver && LatestPromotedTx(w.db.rows) != ""
  {
    assert RowOk(w, 0);
    var i := LatestWithStatus(w.db.rows, Promoted).value;
    assert RowOk(w, i);
  }

  /** A row other than the bootstrap row can be snapshot as an update. */
  lemma SnapOf(w: World, i: nat)
    requires StoreOk(w) && i < |w.db.rows|
    ensures Snap(w, w.db.rows[i]) && IndexOf(w.db.rows, w.db.rows[i].txId) == i
    ensures !w.db.rows[i].status.Promoted? || HasBase(w.db.rows[i]) ==> 0 < i
  {
    IndexUnique(w.db.rows, i);
    assert RowOk(w, 0);
  }

  /** The base a non-bootstrap snapshot names is in the table and has been promoted. */
  lemma BaseFound(w: World, a: Row)
    requires StoreOk(w) && SnapUpdate(w, a)
    ensures var b := IndexOf(w.db.rows, BaseString(a));
            && BaseString(a) in w.promotedEver
            && b < IndexOf(w.db.rows, a.txId)
            && PromotedOrLater(w.db.rows[b].status)
            && Snap(w, w.db.rows[b])
  {
    assert RowOk(w, IndexOf(w.db.rows, a.txId));
    assert PromotedRecord(w, BaseString(a));
  }

  // ---------------------------------------------------------------- obligations

  lemma SwitchAllowed(w: World, a: Row)
    requires StoreOk(w) && Snap(w, a)
    requires Released(w.db.rows[IndexOf(w.db.rows, a.txId)].status) || a.txId in w.promotedEver
    ensures Allowed(w, Switch(a.binPath))
  {
    var i := IndexOf(w.db.rows, a.txId);
    if a.txId in w.promotedEver {
      assert PromotedRecord(w, a.txId);
    }
    assert Vetted(w, i);
  }

  lemma RollbackAllowed(w: World, pc: RollbackPc, site: Site, c: Choice)
    requires StoreOk(w) && SupervisorOk(w, Rollback(pc, site))
    ensures Allowed(w, NextRollback(w, pc, site, c).stmt) && Needs(NextRollback(w, pc, site, c).stmt).None?
  {
    if pc.SwitchBack? {
      SwitchAllowed(w, pc.target);
    }
  }

  lemma DeployAllowed(w: World, pc: DeployPc, c: Choice)
    requires pc.SwitchTo? ==> Allowed(w, Switch(pc.a.binPath))
    ensures Allowed(w, NextDeploy(w, pc, c).stmt) && Needs(NextDeploy(w, pc, c).stmt).None?
  {
    hide FirstApproved, Matches, NullIfEmpty, IndexOf;
  }

  lemma PromoteAllowed(w: World, pc: PromotePc)
    ensures Allowed(w, NextPromote(w, pc).0) && Needs(NextPromote(w, pc).0).None?
  {
  }

  lemma MainAllowed(w: World, pc: MainPc, c: Choice)
    requires SupervisorOk(w, Main(pc))
    ensures Allowed(w, NextMain(w, pc, c).stmt) && Needs(NextMain(w, pc, c).stmt).None?
  {
  }

  lemma CommandAllowed(w: World, pc: CommandPc, c: Choice)
    requires WorkerOk(w, Commanding(pc))
    ensures Allowed(w, NextCommand(w, pc, c).stmt) && Needs(NextCommand(w, pc, c).stmt).None?
  {
  }

  /** The events of the pipeline moves are the ones their edges call for. */
  lemma PipelineEvents()
    ensures EventFits(Created, Building, Some(BuildStartedEvent))
    ensures EventFits(Building, BuildFailed, Some(BuildFailedEvent)) && EventFits(Building, BuildFailed, None)
    ensures EventFits(Building, Testing, Some(TestStartedEvent))
    ensures EventFits(Testing, TestFailed, Some(TestFailedEvent))
    ensures EventFits(Testing, SelfChecking, Some(SelfCheckStartedEvent))
    ensures EventFits(SelfChecking, SelfCheckFailed, Some(SelfCheckFailedEvent))
    ensures EventFits(SelfChecking, Staged, Some(StagedEvent))
  {
  }

  lemma BuildMoveAllowed(w: World, tx: string, pc: StagePc, c: Choice)
    requires pc.Enter? || pc.BuildFail? || pc.HashFail? || pc.ToTesting?
    requires pc.ToTesting? ==> Has(w.db.rows, tx) && Sealed(w, w.db.rows[IndexOf(w.db.rows, tx)])
    ensures Allowed(w, NextStage(w, tx, pc, c).stmt) && Needs(NextStage(w, tx, pc, c).stmt) == Some(tx)
  {
    PipelineEvents();
  }

  lemma CheckMoveAllowed(w: World, tx: string, pc: StagePc, c: Choice)
    requires pc.TestFail? || pc.ToSelfCheck? || pc.SelfCheckFail? || pc.ToStaged?
    ensures Allowed(w, NextStage(w, tx, pc, c).stmt) && Needs(NextStage(w, tx, pc, c).stmt).None?
  {
    PipelineEvents();
  }

  lemma StageAllowed(w: World, tx: string, pc: StagePc, c: Choice)
    requires StageOk(w, tx, pc)
    ensures var s := NextStage(w, tx, pc, c).stmt;
            Allowed(w, s) && (Needs(s).Some? ==> Needs(s) == Some(tx) && OwningStage(pc))
  {
    if pc.Enter? || pc.BuildFail? || pc.HashFail? || pc.ToTesting? {
      BuildMoveAllowed(w, tx, pc, c);
    } else if pc.TestFail? || pc.ToSelfCheck? || pc.SelfCheckFail? || pc.ToStaged? {
      CheckMoveAllowed(w, tx, pc, c);
    }
  }

  /** A process owes nothing it cannot pay: its next statement is allowed. */
  lemma NextAllowed(w: World, p: Proc, c: Choice)
    requires StoreOk(w) && ProcOk(w, p)
    ensures Allowed(w, Next(w, p, c).stmt)
    ensures Needs(Next(w, p, c).stmt).Some? ==> Needs(Next(w, p, c).stmt) == Owns(p)
  {
    match p {
      case Supervisor(Main(pc)) => MainAllowed(w, pc, c);
      case Supervisor(Rollback(pc, site)) => RollbackAllowed(w, pc, site, c);
      case Supervisor(Deploy(pc)) =>
        if pc.SwitchTo? {
          SwitchAllowed(w, pc.a);
        }
        DeployAllowed(w, pc, c);
      case Supervisor(Promote(pc)) => PromoteAllowed(w, pc);
      case Watcher(AutoPromote(pc)) => PromoteAllowed(w, pc);
      case Worker(Commanding(pc)) => CommandAllowed(w, pc, c);
      case Worker(Staging(tx, pc)) => StageAllowed(w, tx, pc, c);
      case _ =>
    }
  }

  // ----------------------------------------------- what a process knows next

  lemma RollbackNextOk(w: World, w': World, pc: RollbackPc, site: Site, c: Choice)
    requires StoreOk(w) && SupervisorOk(w, Rollback(pc, site))
    requires w' == Apply(w, NextRollback(w, pc, site, c).stmt, c.now)
    ensures ProcOk(w', NextRollback(w, pc, site, c).next) && Owns(NextRollback(w, pc, site, c).next).None?
  {
    if pc.Lookup? {
      BaseFound(w, pc.a);
    }
  }

  /** An approved row is not bootstrap and has its digest. */
  lemma ApprovedRow(w: World, i: nat)
    requires StoreOk(w) && i < |w.db.rows| && w.db.rows[i].status.Approved?
    ensures 0 < i && w.db.rows[i].sha256.Some? && IsDigest(w.db.rows[i].sha256.value)
  {
    assert RowOk(w, 0) && RowOk(w, i);
  }

  /** A claimed artifact is a released row other than bootstrap. */
  lemma ClaimReleases(w: World, i: nat, now: int)
    requires Unique(w.db.rows) && 0 < i < |w.db.rows|
    requires w.db.rows[i].status.Approved? && w.db.rows[i].sha256.Some? && IsDigest(w.db.rows[i].sha256.value)
    ensures var a := w.db.rows[i];
            SnapReleased(Apply(w, Update(a.txId, Approved, Write(Deploying, deployStarted := true), None), now),
                         a.(status := Deploying))
  {
    var a := w.db.rows[i];
    var s := Update(a.txId, Approved, Write(Deploying, deployStarted := true), None);
    IndexUnique(w.db.rows, i);
    CasTouchesOneRow(w.db, a.txId, Approved, s.w, None, now);
    UpdateGrows(w, a.txId, Approved, s.w, None, now);
    IndexStable(w, Apply(w, s, now), a.txId);
  }

  lemma DeployNextOk(w: World, w': World, pc: DeployPc, c: Choice)
    requires StoreOk(w) && SupervisorOk(w, Deploy(pc))
    requires w' == Apply(w, NextDeploy(w, pc, c).stmt, c.now)
    ensures ProcOk(w', NextDeploy(w, pc, c).next) && Owns(NextDeploy(w, pc, c).next).None?
  {
    if pc.Claim? && FirstApproved(w.db.rows).Some? {
      ApprovedRow(w, FirstApproved(w.db.rows).value);
      ClaimReleases(w, FirstApproved(w.db.rows).value, c.now);
    } else if pc.LogStart? {
      assert w'.db.rows == w.db.rows;
    }
  }

  /** The bootstrap row is never picked for a rollback. */
  lemma PickedForRollback(w: World, i: nat)
    requires StoreOk(w) && i < |w.db.rows|
    requires w.db.rows[i].status.RollbackPending? || HasBase(w.db.rows[i])
    ensures SnapUpdate(w, w.db.rows[i])
  {
    SnapOf(w, i);
    assert RowOk(w, 0);
  }

  lemma PickNextOk(w: World, pc: MainPc, c: Choice)
    requires pc.Head? || pc.CrashRead?
    requires pc.Head? ==>
               forall i :: 0 <= i < |w.db.rows| && w.db.rows[i].status.RollbackPending? ==> SnapUpdate(w, w.db.rows[i])
    requires pc.CrashRead? ==> forall i :: 0 <= i < |w.db.rows| && HasBase(w.db.rows[i]) ==> SnapUpdate(w, w.db.rows[i])
    ensures var e := NextMain(w, pc, c); ProcOk(Apply(w, e.stmt, c.now), e.next) && Owns(e.next).None?
  {
    hide HasBase, SnapUpdate;
  }

  lemma RestNextOk(w: World, w': World, pc: MainPc, c: Choice)
    requires !pc.Head? && !pc.CrashRead? && !pc.CrashMark? && SupervisorOk(w, Main(pc))
    requires pc.Ensure? ==> LatestPromotedTx(w.db.rows) != ""
    ensures ProcOk(w', NextMain(w, pc, c).next) && Owns(NextMain(w, pc, c).next).None?
  {
    hide Cleaned, LatestPromotedTx, SnapUpdate;
  }

  lemma MarkNextOk(w: World, w': World, a: Row, c: Choice)
    requires SnapUpdate(w, a) && Grows(w, w')
    ensures ProcOk(w', NextMain(w, CrashMark(a), c).next) && Owns(NextMain(w, CrashMark(a), c).next).None?
  {
    SnapStable(w, w', a);
    hide Cas, Matches, TransitionWrite, Grows;
  }

  lemma MainNextOk(w: World, w': World, pc: MainPc, c: Choice)
    requires SupervisorOk(w, Main(pc)) && Grows(w, w')
    requires pc.Ensure? ==> LatestPromotedTx(w.db.rows) != ""
    requires pc.Head? ==>
               forall i :: 0 <= i < |w.db.rows| && w.db.rows[i].status.RollbackPending? ==> SnapUpdate(w, w.db.rows[i])
    requires pc.CrashRead? ==> forall i :: 0 <= i < |w.db.rows| && HasBase(w.db.rows[i]) ==> SnapUpdate(w, w.db.rows[i])
    requires !pc.CrashMark? ==> w' == Apply(w, NextMain(w, pc, c).stmt, c.now)
    ensures ProcOk(w', NextMain(w, pc, c).next) && Owns(NextMain(w, pc, c).next).None?
  {
    hide Grows, NextMain, Apply, ProcOk, Owns, LatestPromotedTx, HasBase, SnapUpdate;
    match pc {
      case Head => PickNextOk(w, pc, c);
      case CrashRead => PickNextOk(w, pc, c);
      case CrashMark(a) => MarkNextOk(w, w', a, c);
      case _ => RestNextOk(w, w', pc, c);
    }
  }

  /** The facts about the store that the main loop's places rely on. */
  lemma MainFacts(w: World)
    requires StoreOk(w)
    ensures LatestPromotedTx(w.db.rows) != ""
    ensures forall i :: 0 <= i < |w.db.rows| && w.db.rows[i].status.RollbackPending? ==> SnapUpdate(w, w.db.rows[i])
    ensures forall i :: 0 <= i < |w.db.rows| && HasBase(w.db.rows[i]) ==> SnapUpdate(w, w.db.rows[i])
  {
    SomePromoted(w);
    forall i | 0 <= i < |w.db.rows| && (w.db.rows[i].status.RollbackPending? || HasBase(w.db.rows[i]))
      ensures SnapUpdate(w, w.db.rows[i])
    {
      PickedForRollback(w, i);
    }
  }

  lemma CommandNextOk(w: World, w': World, pc: CommandPc, c: Choice)
    requires StoreOk(w)
    requires w' == Apply(w, NextCommand(w, pc, c).stmt, c.now)
    ensures ProcOk(w', NextCommand(w, pc, c).next) && Owns(NextCommand(w, pc, c).next).None?
  {
    if pc.RollbackRead? && Has(w.db.rows, pc.tx) {
      SnapOf(w, IndexOf(w.db.rows, pc.tx));
      assert RowOk(w, 0);
    }
  }

  /** A row just inserted belongs to the worker that inserted it. */
  lemma InsertOwns(w: World, tx: string, base: string, now: int)
    requires StoreOk(w) && IsTxId(tx) && base in w.promotedEver
    requires Insert(w.db, tx, base, BinPath(w.root, tx), Created, Some(TxnCreatedEvent), now).Ok?
    ensures !Has(w.db.rows, tx) && Owned(Apply(w, InsertCreated(tx, base), now), tx)
  {
    if Has(w.db.rows, tx) {
      InsertRefused(w, tx, base, now);
    } else {
      InsertAppends(w, tx, base, now);
      IndexAfterAppend(w.db.rows, NewRow(tx, Some(base), BinPath(w.root, tx), Created, now), tx);
      AppendedIndex(w.db.rows, NewRow(tx, Some(base), BinPath(w.root, tx), Created, now));
    }
  }

  lemma AppendedIndex(rows: seq<Row>, row: Row)
    requires !Has(rows, row.txId)
    ensures IndexOf(rows + [row], row.txId) == |rows|
  {
    assert (rows + [row])[..|rows|] == rows;
  }

  lemma EnterOwns(w: World, tx: string, now: int)
    requires StoreOk(w) && Owned(w, tx) && Matches(w.db.rows, tx, Created)
    ensures Owned(Apply(w, Update(tx, Created, TransitionWrite(Building, ""), Some(BuildStartedEvent)), now), tx)
  {
    var write := TransitionWrite(Building, "");
    CasTouchesOneRow(w.db, tx, Created, write, Some(BuildStartedEvent), now);
    UpdateGrows(w, tx, Created, write, Some(BuildStartedEvent), now);
    IndexStable(w, Apply(w, Update(tx, Created, write, Some(BuildStartedEvent)), now), tx);
  }

  lemma MetadataSeals(w: World, tx: string, sha: Digest, now: int)
    requires Owned(w, tx) && w.db.rows[IndexOf(w.db.rows, tx)].binPath == BinPath(w.root, tx)
    requires w.tampered || (BinPath(w.root, tx) in w.disk && w.disk[BinPath(w.root, tx)] == sha)
    ensures var w' := Apply(w, Metadata(tx, sha), now);
            Owned(w', tx) && Sealed(w', w'.db.rows[IndexOf(w'.db.rows, tx)])
  {
    hide NullIfEmpty, BinPath, Cas, Insert;
    var w' := Apply(w, Metadata(tx, sha), now);
    var i := IndexOf(w.db.rows, tx);
    DigestUntrimmed(sha);
    assert forall j :: 0 <= j < |w.db.rows| ==> w'.db.rows[j].txId == w.db.rows[j].txId;
    assert IndexOf(w'.db.rows, tx) == i;
    assert w'.db.rows[i].sha256 == Some(sha) && w'.db.rows[i].binPath == BinPath(w.root, tx);
  }

  /** The build steps that leave the worker's row alone. */
  lemma BuildNextOk(w: World, w': World, tx: string, pc: StagePc, c: Choice)
    requires StageOk(w, tx, pc) && (pc.Build? || pc.Hash? || pc.LogBuilt?)
    requires w' == Apply(w, NextStage(w, tx, pc, c).stmt, c.now)
    ensures ProcOk(w', NextStage(w, tx, pc, c).next)
    ensures var o := Owns(NextStage(w, tx, pc, c).next); o.Some? ==> o == Some(tx)
  {
    hide BinPath;
    assert w'.db.rows == w.db.rows;
  }

  /** The pipeline steps after which the worker owns nothing. */
  lemma FreeNextOk(w: World, w': World, tx: string, pc: StagePc, c: Choice)
    requires IsTxId(tx)
    requires !pc.ReadBase? && !pc.InsertRow? && (OwningStage(pc) ==> pc.BuildFail? || pc.HashFail? || pc.ToTesting?)
    ensures ProcOk(w', NextStage(w, tx, pc, c).next) && Owns(NextStage(w, tx, pc, c).next).None?
  {
    hide BinPath, IndexOf, Owned, Sealed;
  }

  lemma InsertNextOk(w: World, tx: string, base: string, c: Choice)
    requires StoreOk(w) && IsTxId(tx) && base in w.promotedEver
    ensures var e := NextStage(w, tx, InsertRow(base), c);
            ProcOk(Apply(w, e.stmt, c.now), e.next) && (Owns(e.next).Some? ==> !Has(w.db.rows, tx))
  {
    if Insert(w.db, tx, base, BinPath(w.root, tx), Created, Some(TxnCreatedEvent), c.now).Ok? {
      InsertOwns(w, tx, base, c.now);
    }
  }

  lemma EnterNextOk(w: World, tx: string, c: Choice)
    requires StoreOk(w) && StageOk(w, tx, Enter)
    ensures var e := NextStage(w, tx, Enter, c);
            ProcOk(Apply(w, e.stmt, c.now), e.next) && (Owns(e.next).Some? ==> Owns(e.next) == Some(tx))
  {
    hide StoreOk, BinPath, Cas;
    if Matches(w.db.rows, tx, Created) {
      EnterOwns(w, tx, c.now);
    }
  }

  lemma MetadataNextOk(w: World, tx: string, sha: Digest, c: Choice)
    requires StoreOk(w) && StageOk(w, tx, StoreMetadata(sha))
    ensures var e := NextStage(w, tx, StoreMetadata(sha), c);
            ProcOk(Apply(w, e.stmt, c.now), e.next) && Owns(e.next) == Some(tx)
  {
    hide StoreOk, BinPath, NullIfEmpty;
    BinOf(w, IndexOf(w.db.rows, tx));
    MetadataSeals(w, tx, sha, c.now);
  }

  lemma BaseNextOk(w: World, tx: string, c: Choice)
    requires StoreOk(w) && IsTxId(tx)
    ensures var e := NextStage(w, tx, ReadBase, c);
            ProcOk(Apply(w, e.stmt, c.now), e.next) && Owns(e.next).None?
  {
    SomePromoted(w);
    hide StoreOk, IsTxId, LatestPromotedTx;
  }

  lemma StageNextOk(w: World, w': World, tx: string, pc: StagePc, c: Choice)
    requires StoreOk(w) && StageOk(w, tx, pc)
    requires w' == Apply(w, NextStage(w, tx, pc, c).stmt, c.now)
    ensures ProcOk(w', NextStage(w, tx, pc, c).next)
    ensures var o := Owns(NextStage(w, tx, pc, c).next);
            o.Some? ==> o == Some(tx) && (OwningStage(pc) || !Has(w.db.rows, tx))
  {
    hide StoreOk, NextStage, Apply, ProcOk, Owns, Has, IsTxId, Owned, Sealed;
    match pc {
      case ReadBase => BaseNextOk(w, tx, c);
      case InsertRow(base) =>
        InsertNextOk(w, tx, base, c);
        FreshlyOwned(w, tx, base, c);
      case Enter => EnterNextOk(w, tx, c);
      case StoreMetadata(sha) => MetadataNextOk(w, tx, sha, c);
      case Build => BuildNextOk(w, w', tx, pc, c);
      case Hash => BuildNextOk(w, w', tx, pc, c);
      case LogBuilt => BuildNextOk(w, w', tx, pc, c);
      case _ => FreeNextOk(w, w', tx, pc, c);
    }
  }

  lemma FreshlyOwned(w: World, tx: string, base: string, c: Choice)
    ensures var o := Owns(NextStage(w, tx, InsertRow(base), c).next); o.Some? ==> o == Some(tx)
  {
    hide Insert, BinPath;
  }

  lemma BinOf(w: World, i: nat)
    requires StoreOk(w) && i < |w.db.rows|
    ensures w.db.rows[i].binPath == BinPath(w.root, w.db.rows[i].txId)
  {
    assert RowOk(w, i);
  }

  /** After its step a process knows what its next place calls for, and owns nothing that was another's. */
  lemma NextOk(w: World, w': World, p: Proc, c: Choice)
    requires StoreOk(w) && ProcOk(w, p) && Grows(w, w')
    requires w' == Apply(w, Next(w, p, c).stmt, c.now)
    ensures ProcOk(w', Next(w, p, c).next)
    ensures var o := Owns(Next(w, p, c).next);
            o.Some? ==> o == Owns(p) || !Has(w.db.rows, o.value)
  {
    hide NextMain, NextRollback, NextDeploy, NextCommand, NextStage;
    hide StoreOk, StageOk, Insert, Cas, WithDb, WithMetadata;
    match p {
      case Supervisor(Main(pc)) =>
        MainFacts(w);
        MainNextOk(w, w', pc, c);
      case Supervisor(Rollback(pc, site)) => RollbackNextOk(w, w', pc, site, c);
      case Supervisor(Deploy(pc)) => DeployNextOk(w, w', pc, c);
      case Worker(Commanding(pc)) => CommandNextOk(w, w', pc, c);
      case Worker(Staging(tx, pc)) => StageNextOk(w, w', tx, pc, c);
      case _ =>
    }
  }

  // --------------------------------------------------------- every action

  /** Nothing a process knows depends on the list of processes. */
  lemma ProcsDoNotMatter(w: World, procs: seq<Proc>, p: Proc)
    ensures ProcOk(w.(procs := procs), p) == ProcOk(w, p)
  {
    hide IndexOf, BinPath, Trail;
  }

  lemma StoreWithoutProcs(w: World, procs: seq<Proc>)
    requires StoreOk(w)
    ensures StoreOk(w.(procs := procs))
  {
    var w' := w.(procs := procs);
    assert forall i :: 0 <= i < |w.db.rows| ==> RowOk(w, i) ==> RowOk(w', i);
    assert forall t :: PromotedRecord(w, t) ==> PromotedRecord(w', t);
    LinkKeeps(w, w');
  }

  predicate Harmless(p: Proc) {
    p == Gone || p == Worker(Commanding(Idle)) || p == Supervisor(Main(Ensure)) || (p.Watcher? && p.watch.Timer?)
  }

  /** New processes start at places where nothing is claimed. */
  lemma SpawnHarmless(w: World, p: Proc, c: Choice)
    ensures forall q :: q in Next(w, p, c).spawn ==> Harmless(q)
  {
    hide IndexOf, Cas, Insert, Cleaned, LatestWithStatus, FirstApproved;
  }

  /** The list of processes stays in order: each is as before, the one that moved, or harmless. */
  lemma ProcsKeep(w: World, w': World, i: nat, next: Proc, procs: seq<Proc>)
    requires Inv(w) && |w.procs| <= |procs| && StoreOk(w')
    requires forall j :: 0 <= j < |procs| ==>
               || Harmless(procs[j]) || (j == i && procs[j] == next)
               || (j != i && j < |w.procs| && procs[j] == w.procs[j] && ProcOk(w', procs[j]))
    requires ProcOk(w', next)
    requires Owns(next).Some? ==>
               (i < |w.procs| && Owns(next) == Owns(w.procs[i])) || !Has(w.db.rows, Owns(next).value)
    ensures Inv(w'.(procs := procs))
  {
    var w'' := w'.(procs := procs);
    StoreWithoutProcs(w', procs);
    forall j | 0 <= j < |procs|
      ensures ProcOk(w'', procs[j])
    {
      ProcsDoNotMatter(w', procs, procs[j]);
    }
    forall j | 0 <= j < |procs| && Owns(procs[j]).Some?
      ensures (j < |w.procs| && Owns(procs[j]) == Owns(w.procs[j]) && Has(w.db.rows, Owns(procs[j]).value))
              || (j == i && !Has(w.db.rows, Owns(procs[j]).value))
    {
      if j < |w.procs| {
        assert ProcOk(w, w.procs[j]);
        OwnerHasRow(w, w.procs[j]);
      }
    }
    assert OneOwner(procs);
  }

  lemma OwnerHasRow(w: World, p: Proc)
    requires ProcOk(w, p)
    ensures Owns(p).Some? ==> Has(w.db.rows, Owns(p).value)
  {
  }

  lemma RunKeeps(w: World, i: nat, c: Choice)
    requires Inv(w) && i < |w.procs|
    ensures Inv(Step(w, Run(i, c)))
  {
    hide NextSupervisor, NextWatcher, NextWorker, StoreOk, ProcOk, Apply;
    var p := w.procs[i];
    var e := Next(w, p, c);
    var w' := Apply(w, e.stmt, c.now);
    assert ProcOk(w, p);
    NextAllowed(w, p, c);
    ApplyKeeps(w, e.stmt, c.now);
    NextOk(w, w', p, c);
    SpawnHarmless(w, p, c);
    var procs := WithFlag(w.procs[i := e.next] + e.spawn, e.stopped);
    forall j | 0 <= j < |w.procs| && j != i
      ensures ProcOk(w', w.procs[j])
    {
      assert ProcOk(w, w.procs[j]);
      assert Owns(w.procs[j]).Some? ==> Owns(w.procs[j]) != Owns(p);
      ProcStable(w, w', w.procs[j]);
    }
    ProcsKeep(w, w', i, e.next, procs);
  }

  lemma KillKeeps(w: World, i: nat)
    requires Inv(w) && i < |w.procs|
    ensures Inv(Step(w, Kill(i)))
  {
    var p := w.procs[i];
    assert ProcOk(w, p);
    ProcsKeep(w, w, i, Killed(p), w.procs[i := Killed(p)]);
  }

  lemma LaunchKeeps(w: World, w': World)
    requires Inv(w) && StoreOk(w')
    requires forall j :: 0 <= j < |w.procs| ==> ProcOk(w', w.procs[j])
    ensures Inv(w'.(procs := w.procs + [Supervisor(Main(Ensure))]))
  {
    ProcsKeep(w, w', |w.procs|, Supervisor(Main(Ensure)), w.procs + [Supervisor(Main(Ensure))]);
  }

  /** What startup.sh does to the file and the link, before it launches a supervisor. */
  function Relinked(w: World, d: Digest): World {
    var bin := BinPath(w.root, BOOTSTRAP);
    w.(disk := w.disk[bin := d], link := bin)
  }

  lemma RelinkKeepsStore(w: World, d: Digest)
    requires StoreOk(w)
    ensures StoreOk(Relinked(w, d)) && Grows(w, Relinked(w, d))
  {
    var w' := Relinked(w, d);
    assert RowOk(w, 0);
    forall i | 0 <= i < |w.db.rows|
      ensures RowOk(w', i)
    {
      assert RowOk(w, i);
      if w.db.rows[i].binPath == BinPath(w.root, BOOTSTRAP) {
        BinPathInjective(w.root, w.db.rows[i].txId, BOOTSTRAP);
      }
    }
    assert forall t :: PromotedRecord(w, t) ==> PromotedRecord(w', t);
    assert Vetted(w', 0);
  }

  lemma RelinkSpares(w: World, d: Digest, tx: string)
    requires StoreOk(w)
    ensures Spares(w, Relinked(w, d), tx)
  {
    assert RowOk(w, 0);
    if BinPath(w.root, tx) == BinPath(w.root, BOOTSTRAP) {
      BinPathInjective(w.root, tx, BOOTSTRAP);
    }
  }

  lemma ContainerKeeps(w: World, d: Digest)
    requires Inv(w)
    ensures Inv(Step(w, StartContainer(d)))
  {
    var w' := Relinked(w, d);
    RelinkKeepsStore(w, d);
    forall j | 0 <= j < |w.procs|
      ensures ProcOk(w', w.procs[j])
    {
      if Owns(w.procs[j]).Some? {
        RelinkSpares(w, d, Owns(w.procs[j]).value);
      }
      ProcStable(w, w', w.procs[j]);
    }
    LaunchKeeps(w, w');
  }

  lemma TamperKeeps(w: World, path: string, d: Option<Digest>)
    requires Inv(w)
    ensures Inv(Step(w, Tamper(path, d)))
  {
    var w' := Step(w, Tamper(path, d));
    assert forall i :: 0 <= i < |w.db.rows| ==> RowOk(w, i) ==> RowOk(w', i);
    assert forall t :: PromotedRecord(w, t) ==> PromotedRecord(w', t);
    LinkKeeps(w, w');
    forall j | 0 <= j < |w.procs|
      ensures ProcOk(w', w.procs[j])
    {
      ProcStable(w, w', w.procs[j]);
    }
  }

  lemma ChatterKeeps(w: World)
    requires Inv(w)
    ensures Inv(Step(w, Chatter))
  {
    hide ProcOk, StoreOk;
    var w' := Apply(w, Log(Unrelated, ""), 0);
    ApplyKeeps(w, Log(Unrelated, ""), 0);
    forall j | 0 <= j < |w.procs|
      ensures ProcOk(w', w.procs[j])
    {
      ProcStable(w, w', w.procs[j]);
    }
  }

  /** The protocol invariant is kept by every action, whoever acts and whoever dies. */
  lemma StepKeeps(w: World, act: Action)
    requires Inv(w)
    ensures Inv(Step(w, act))
  {
    hide Inv;
    match act
    case Run(i, c) =>
      if i < |w.procs| {
        RunKeeps(w, i, c);
      }
    case Kill(i) =>
      if i < |w.procs| {
        KillKeeps(w, i);
      }
    case StartContainer(d) => ContainerKeeps(w, d);
    case StartSupervisor =>
      StartKeeps(w);
    case Tamper(path, d) => TamperKeeps(w, path, d);
    case Chatter => ChatterKeeps(w);
  }

  lemma StartKeeps(w: World)
    requires Inv(w)
    ensures Inv(Step(w, StartSupervisor))
  {
    LaunchKeeps(w, w);
  }

  lemma BootstrapIsTxId()
    ensures IsTxId(BOOTSTRAP)
  {
  }

  lemma InitialOk(w: World)
    requires Initial(w)
    ensures Inv(w)
  {
    hide IsTxChar, IsTxId, BinPath;
    BootstrapIsTxId();
    assert w.db.rows[0].txId == BOOTSTRAP && IndexOf(w.db.rows, BOOTSTRAP) == 0;
    assert RowOk(w, 0) && Vetted(w, 0) && PromotedRecord(w, BOOTSTRAP);
  }

  /** The invariant holds after every run. */
  lemma {:induction false} InvAlways(w: World, acts: seq<Action>)
    requires Initial(w)
    ensures Inv(Execute(w, acts))
  {
    if |acts| == 0 {
      InitialOk(w);
    } else {
      InvAlways(w, acts[..|acts| - 1]);
      StepKeeps(Execute(w, acts[..|acts| - 1]), acts[|acts| - 1]);
    }
  }
}

/**
 When the active artifact can be one whose deployment failed or that has been rolled back: exactly which
 steps bring this about, and how supervisors must be started so that the first never happens.
 */
module ActiveArtifact {
  import opened Options
  import opened ArtifactStatus
  import opened ArtifactTable
  import opened UpdateProtocol
  import opened UpdateInvariant
  import opened UpdateRuns
  import opened UpdateSteps

  /** The active link is the binary of a row with this status. */
  ghost predicate ActiveIs(w: World, status: Status) {
    exists i :: 0 <= i < |w.db.rows| && w.link == w.db.rows[i].binPath && w.db.rows[i].status == status
  }

  // -------------------------------------------------------- claimed deployments

  /** The deployment has been claimed and the link not yet switched to it. */
  predicate Unswitched(p: Proc) {
    Holder(p).Some? && !p.sup.deploy.MarkDeployed?
  }

  predicate HeldStatus(s: Status) {
    s.Deploying? || s.DeployFailed?
  }

  /**
   The row a supervisor is deploying is deploying, or has been marked failed by another supervisor's
   cleanup; and until the switch the link is not its binary.
   */
  predicate HoldOk(w: World, p: Proc) {
    Holder(p).Some? ==>
      var i := IndexOf(w.db.rows, Holder(p).value);
      && i < |w.db.rows| && HeldStatus(w.db.rows[i].status)
      && (Unswitched(p) ==> w.link != w.db.rows[i].binPath)
  }

  ghost predicate OneHolder(procs: seq<Proc>) {
    forall i, j :: 0 <= i < j < |procs| && Holder(procs[i]).Some? ==> Holder(procs[i]) != Holder(procs[j])
  }

  ghost predicate Held(w: World) {
    (forall i :: 0 <= i < |w.procs| ==> HoldOk(w, w.procs[i])) && OneHolder(w.procs)
  }

  // -------------------------------------------------- what one step does to it

  lemma RowOfTx(w: World, tx: string)
    requires Inv(w) && Has(w.db.rows, tx)
    ensures var i := IndexOf(w.db.rows, tx);
            && w.db.rows[i].binPath == BinPath(w.root, tx)
            && forall j :: 0 <= j < |w.db.rows| && w.db.rows[j].binPath == w.db.rows[i].binPath ==> j == i
  {
    var i := IndexOf(w.db.rows, tx);
    assert RowOk(w, i);
    forall j | 0 <= j < |w.db.rows| && w.db.rows[j].binPath == w.db.rows[i].binPath
      ensures j == i
    {
      assert RowOk(w, j);
      BinPathInjective(w.root, w.db.rows[j].txId, w.db.rows[i].txId);
      IndexUnique(w.db.rows, j);
    }
  }

  /** The row of a transaction after a step. */
  lemma SameRow(w: World, act: Action, tx: string)
    requires Inv(w) && Has(w.db.rows, tx)
    ensures var i := IndexOf(w.db.rows, tx);
            var rows := Step(w, act).db.rows;
            && IndexOf(rows, tx) == i < |rows| && rows[i].binPath == w.db.rows[i].binPath
            && rows[i].status == StatusAfter(w.db.rows[i], StmtOf(w, act))
  {
    hide Step, StmtOf, StatusAfter;
    var i := IndexOf(w.db.rows, tx);
    forall j | 0 <= j <= i
      ensures j < |Step(w, act).db.rows| && Step(w, act).db.rows[j].txId == w.db.rows[j].txId
    {
      StepSetsStatus(w, act, j);
    }
    StepSetsStatus(w, act, i);
  }

  /** Only its holder takes a deploying row further; another supervisor's cleanup can only fail it. */
  lemma OthersSpareHeld(w: World, act: Action, i: nat)
    requires i < |w.db.rows| && HeldStatus(w.db.rows[i].status)
    requires act.Run? && act.i < |w.procs| ==>
               ProcOk(w, w.procs[act.i]) && Holder(w.procs[act.i]) != Some(w.db.rows[i].txId)
    ensures HeldStatus(StatusAfter(w.db.rows[i], StmtOf(w, act)))
  {
    hide Next;
    if act.Run? && act.i < |w.procs| {
      UpdatesComeFrom(w, w.procs[act.i], act.c);
    }
  }

  /** Where the link goes in a step. */
  lemma LinkAfter(w: World, act: Action)
    requires Step(w, act).link != w.link
    ensures act.StartContainer? ==> Step(w, act).link == BinPath(w.root, BOOTSTRAP)
    ensures !act.StartContainer? ==>
              act.Run? && act.i < |w.procs| && SwitchFrom(w.procs[act.i], act.c, Step(w, act).link)
  {
    hide Step, Next, SwitchFrom, BinPath;
    StepIsStatement(w, act);
    if act.Run? {
      LinkAfterStatement(w, StmtOf(w, act), act.c.now);
      if act.i < |w.procs| {
        SwitchesComeFrom(w, w.procs[act.i], act.c, Step(w, act).link);
      }
    }
  }

  lemma LinkAfterStatement(w: World, s: Stmt, now: int)
    ensures Apply(w, s, now).link == if s.Switch? then s.path else w.link
  {
    hide Insert, EnsureBootstrap, Cas, Cleaned, WithMetadata;
  }

  /** A switch of another process does not go to a row that is being deployed. */
  lemma SwitchSparesHeld(w: World, act: Action, tx: string)
    requires Inv(w) && Has(w.db.rows, tx) && HeldStatus(w.db.rows[IndexOf(w.db.rows, tx)].status)
    requires act.Run? && act.i < |w.procs| ==> Holder(w.procs[act.i]) != Some(tx)
    requires w.link != w.db.rows[IndexOf(w.db.rows, tx)].binPath
    ensures Step(w, act).link != w.db.rows[IndexOf(w.db.rows, tx)].binPath
  {
    hide Step, BinPath, IsTxId;
    RowOfTx(w, tx);
    if Step(w, act).link != w.link {
      LinkAfter(w, act);
      var i := IndexOf(w.db.rows, tx);
      if act.StartContainer? {
        BootstrapRow(w);
        assert i != 0;
      } else {
        assert ProcOk(w, w.procs[act.i]);
        SwitchTargets(w, w.procs[act.i], act.c, Step(w, act).link);
      }
    }
  }

  lemma BootstrapRow(w: World)
    requires Inv(w)
    ensures w.db.rows[0].binPath == BinPath(w.root, BOOTSTRAP) && w.db.rows[0].status.Promoted?
  {
    assert RowOk(w, 0);
  }

  /** A switch goes to the holder's own row, or back to a row that has been promoted. */
  lemma SwitchTargets(w: World, p: Proc, c: Choice, path: string)
    requires Inv(w) && ProcOk(w, p) && SwitchFrom(p, c, path)
    ensures
      || (Holder(p).Some? && Has(w.db.rows, Holder(p).value)
          && path == w.db.rows[IndexOf(w.db.rows, Holder(p).value)].binPath)
      || (p.sup.Rollback? && p.sup.rollback.SwitchBack? && var t := p.sup.rollback.target.txId;
          Has(w.db.rows, t) && path == w.db.rows[IndexOf(w.db.rows, t)].binPath
          && PromotedOrLater(w.db.rows[IndexOf(w.db.rows, t)].status))
  {
    if p.sup.Rollback? {
      assert PromotedRecord(w, p.sup.rollback.target.txId);
    }
  }

  // ------------------------------------------------------- Held is an invariant

  /** What is held stays held correctly while another process moves. */
  lemma HoldStays(w: World, act: Action, p: Proc)
    requires Inv(w) && HoldOk(w, p)
    requires act.Run? && act.i < |w.procs| && Holder(p).Some? ==> Holder(w.procs[act.i]) != Holder(p)
    ensures HoldOk(Step(w, act), p)
  {
    hide Step, StmtOf, StatusAfter;
    if Holder(p).Some? {
      var tx := Holder(p).value;
      var i := IndexOf(w.db.rows, tx);
      assert act.Run? && act.i < |w.procs| ==> ProcOk(w, w.procs[act.i]);
      SameRow(w, act, tx);
      OthersSpareHeld(w, act, i);
      if Unswitched(p) {
        SwitchSparesHeld(w, act, tx);
      }
    }
  }

  predicate IsDeployer(p: Proc) {
    p.Supervisor? && p.sup.Deploy?
  }

  /** Only deployments hold anything. */
  lemma OnlyDeployersHold(w: World, p: Proc, c: Choice)
    requires !IsDeployer(p)
    ensures Holder(Next(w, p, c).next).None?
  {
    hide IndexOf, Matches, Insert, LatestWithStatus, Cleaned, NullIfEmpty, BinPath, HasBase, Has, Apply;
  }

  /** What a process holds after its own step, it held before, or has just claimed. */
  lemma HoldMoves(w: World, p: Proc, c: Choice)
    ensures var q := Next(w, p, c).next;
            Holder(q).Some? ==>
              || (p == Supervisor(Deploy(Claim)) && FirstApproved(w.db.rows).Some?
                  && q == Supervisor(Deploy(LogStart(w.db.rows[FirstApproved(w.db.rows).value].(status := Deploying)))))
              || (Holder(p) == Holder(q) && Unswitched(p) && (Unswitched(q) || Next(w, p, c).stmt.Switch?)
                  && (Unswitched(q) ==> Next(w, p, c).stmt.Skip? || Next(w, p, c).stmt.Log?)
                  && !Next(w, p, c).stmt.Update?)
  {
    if IsDeployer(p) {
      hide Matches, NullIfEmpty;
    } else {
      hide Next;
      OnlyDeployersHold(w, p, c);
    }
  }

  /** A claim takes a row that nobody holds and that is not active. */
  lemma ClaimHolds(w: World, act: Action)
    requires Inv(w) && Moves(w, act, Supervisor(Deploy(Claim))) && FirstApproved(w.db.rows).Some?
    ensures var a := w.db.rows[FirstApproved(w.db.rows).value];
            HoldOk(Step(w, act), Supervisor(Deploy(LogStart(a.(status := Deploying)))))
  {
    hide Step, FirstApproved;
    var i := FirstApproved(w.db.rows).value;
    var a := w.db.rows[i];
    IndexUnique(w.db.rows, i);
    SameRow(w, act, a.txId);
    ClaimStatement(w, act.c);
    if w.link == a.binPath {
      ActiveIsVetted(w, i);
      BootstrapRow(w);
    }
    if Step(w, act).link != w.link {
      LinkAfter(w, act);
    }
  }

  lemma ClaimStatement(w: World, c: Choice)
    requires FirstApproved(w.db.rows).Some?
    ensures Next(w, Supervisor(Deploy(Claim)), c).stmt
            == Update(w.db.rows[FirstApproved(w.db.rows).value].txId, Approved,
                      Write(Deploying, deployStarted := true), None)
  {
  }

  /** A row that is not bootstrap and not released is not active. */
  lemma ActiveIsVetted(w: World, i: nat)
    requires Inv(w) && i < |w.db.rows| && w.link == w.db.rows[i].binPath
    ensures i == 0 || Released(w.db.rows[i].status)
  {
    var k :| 0 <= k < |w.db.rows| && w.link == w.db.rows[k].binPath && Vetted(w, k);
    IndexUnique(w.db.rows, i);
    RowOfTx(w, w.db.rows[i].txId);
  }

  /** The process that moved holds what it should. */
  lemma MoverHolds(w: World, act: Action)
    requires Inv(w) && Held(w) && act.Run? && act.i < |w.procs|
    ensures HoldOk(Step(w, act), Next(w, w.procs[act.i], act.c).next)
  {
    hide Step, Next, Inv, FirstApproved;
    var p := w.procs[act.i];
    var q := Next(w, p, act.c).next;
    HoldMoves(w, p, act.c);
    if Holder(q).Some? {
      if p == Supervisor(Deploy(Claim)) && FirstApproved(w.db.rows).Some? {
        ClaimHolds(w, act);
      } else {
        assert HoldOk(w, p);
        SameRow(w, act, Holder(p).value);
        LinkUnlessSwitched(w, act);
        SwitchesComeFrom(w, p, act.c, "");
      }
    }
  }

  lemma LinkUnlessSwitched(w: World, act: Action)
    requires act.Run? && act.i < |w.procs|
    ensures !Next(w, w.procs[act.i], act.c).stmt.Switch? ==> Step(w, act).link == w.link
  {
    hide Step, Next;
    StepIsStatement(w, act);
    LinkAfterStatement(w, StmtOf(w, act), act.c.now);
  }

  /** A deployment is claimed by one supervisor at a time. */
  lemma HeldStep(w: World, act: Action)
    requires Inv(w) && Held(w)
    ensures Held(Step(w, act))
  {
    hide Step, Next, Inv, HoldOk;
    var w' := Step(w, act);
    if act.Run? && act.i < |w.procs| {
      MoverHolds(w, act);
    }
    forall i | 0 <= i < |w'.procs|
      ensures HoldOk(w', w'.procs[i])
    {
      ProcMoves(w, act, i);
      if i < |w.procs| && w'.procs[i] == w.procs[i] && !(act.Run? && act.i == i) {
        OthersHoldApart(w, act, i);
        HoldStays(w, act, w.procs[i]);
      } else {
        StillStanding(w, act, i);
      }
    }
    OneHolderStep(w, act);
  }

  lemma OthersHoldApart(w: World, act: Action, i: nat)
    requires OneHolder(w.procs) && i < |w.procs|
    ensures act.Run? && act.i < |w.procs| && act.i != i && Holder(w.procs[i]).Some? ==>
              Holder(w.procs[act.i]) != Holder(w.procs[i])
  {
  }

  /** A process that is new, gone, flagged or the mover. */
  lemma StillStanding(w: World, act: Action, i: nat)
    requires Inv(w) && i < |Step(w, act).procs|
    requires var q := Step(w, act).procs[i];
             || Harmless(q) || q.Orphan?
             || (i < |w.procs| && q == w.procs[i] && act.Run? && act.i == i)
             || (act.Run? && act.i == i < |w.procs| && q == Next(w, w.procs[i], act.c).next)
    requires act.Run? && act.i < |w.procs| ==> HoldOk(Step(w, act), Next(w, w.procs[act.i], act.c).next)
    ensures HoldOk(Step(w, act), Step(w, act).procs[i])
  {
    hide Next, Inv;
    if act.Run? && act.i == i < |w.procs| {
      MoverStands(w, act);
    }
  }

  /** The mover stands at its next place, unless it is a watcher that has been flagged. */
  lemma MoverStands(w: World, act: Action)
    requires act.Run? && act.i < |w.procs|
    ensures var q := Step(w, act).procs[act.i]; q == Next(w, w.procs[act.i], act.c).next || q.Watcher?
  {
    hide Next, Apply;
  }

  /** Where a holder comes from. */
  lemma HolderBefore(w: World, act: Action, i: nat)
    requires Inv(w) && Held(w) && i < |Step(w, act).procs| && Holder(Step(w, act).procs[i]).Some?
    ensures i < |w.procs|
    ensures var tx := Holder(Step(w, act).procs[i]);
            || Holder(w.procs[i]) == tx
            || (act.Run? && act.i == i && forall j :: 0 <= j < |w.procs| ==> Holder(w.procs[j]) != tx)
  {
    hide Step, Next, Inv, FirstApproved;
    ProcMoves(w, act, i);
    var tx := Holder(Step(w, act).procs[i]);
    if i < |w.procs| && Holder(w.procs[i]) != tx {
      HoldMoves(w, w.procs[i], act.c);
      var k := FirstApproved(w.db.rows).value;
      forall j | 0 <= j < |w.procs|
        ensures Holder(w.procs[j]) != tx
      {
        assert HoldOk(w, w.procs[j]);
        ApprovedIndex(w, k);
      }
    }
  }

  lemma ApprovedIndex(w: World, k: nat)
    requires Inv(w) && k < |w.db.rows|
    ensures IndexOf(w.db.rows, w.db.rows[k].txId) == k
  {
    IndexUnique(w.db.rows, k);
  }

  lemma OneHolderStep(w: World, act: Action)
    requires Inv(w) && Held(w)
    ensures OneHolder(Step(w, act).procs)
  {
    hide Step, Inv, HoldOk;
    var procs := Step(w, act).procs;
    forall i, j | 0 <= i < j < |procs| && Holder(procs[i]).Some?
      ensures Holder(procs[i]) != Holder(procs[j])
    {
      HolderBefore(w, act, i);
      if Holder(procs[j]).Some? {
        HolderBefore(w, act, j);
      }
    }
  }

  lemma {:induction false} HeldAlways(w0: World, acts: seq<Action>)
    requires Initial(w0)
    ensures Held(Execute(w0, acts)) && Inv(Execute(w0, acts))
  {
    InvAlways(w0, acts);
    hide Step, Inv, Held;
    if acts == [] {
      NobodyHolds(w0);
    } else {
      HeldAlways(w0, acts[..|acts| - 1]);
      HeldStep(Execute(w0, acts[..|acts| - 1]), acts[|acts| - 1]);
    }
  }

  lemma NobodyHolds(w0: World)
    requires Initial(w0)
    ensures Held(Execute(w0, []))
  {
  }

  // ---------------------------------------------- which steps make it so, exactly

  /** The active row is one row, so it has one status. */
  lemma ActiveRow(w: World) returns (i: nat)
    requires Inv(w)
    ensures i < |w.db.rows| && w.link == w.db.rows[i].binPath
    ensures forall status :: ActiveIs(w, status) <==> w.db.rows[i].status == status
  {
    i :| 0 <= i < |w.db.rows| && w.link == w.db.rows[i].binPath && Vetted(w, i);
    OnlyActive(w, i);
  }

  lemma OnlyActive(w: World, i: nat)
    requires Inv(w) && i < |w.db.rows| && w.link == w.db.rows[i].binPath
    ensures forall status :: ActiveIs(w, status) <==> w.db.rows[i].status == status
  {
    IndexUnique(w.db.rows, i);
    RowOfTx(w, w.db.rows[i].txId);
  }

  /** The status of the row that is active after a step. */
  lemma ActiveAfter(w: World, act: Action, i: nat)
    requires Inv(w) && i < |w.db.rows| && Step(w, act).link == w.db.rows[i].binPath
    ensures forall status :: ActiveIs(Step(w, act), status) <==> StatusAfter(w.db.rows[i], StmtOf(w, act)) == status
  {
    hide Step, StatusAfter, StmtOf;
    StepKeeps(w, act);
    hide Inv;
    StepSetsStatus(w, act, i);
    OnlyActive(Step(w, act), i);
  }

  /** A supervisor switches to an artifact whose row has this status. */
  ghost predicate SwitchesTo(w: World, act: Action, status: Status) {
    && act.Run? && act.i < |w.procs| && act.c.ok
    && exists a :: w.procs[act.i] == Supervisor(Deploy(SwitchTo(a))) && HasStatus(w.db.rows, a.txId, status)
  }

  /** A supervisor switches back to a base whose row has this status. */
  ghost predicate SwitchesBackTo(w: World, act: Action, status: Status) {
    && act.Run? && act.i < |w.procs| && act.c.ok
    && exists a, target, site ::
         && w.procs[act.i] == Supervisor(Rollback(SwitchBack(a, target), site))
         && HasStatus(w.db.rows, target.txId, status)
  }

  /** A supervisor marks the active row, whose rollback is pending, as rolled back. */
  ghost predicate MarksActive(w: World, act: Action) {
    && act.Run? && act.i < |w.procs|
    && exists a, site ::
         && w.procs[act.i] == Supervisor(Rollback(MarkRolledBack(a), site))
         && HasStatus(w.db.rows, a.txId, RollbackPending)
         && w.link == w.db.rows[IndexOf(w.db.rows, a.txId)].binPath
  }

  /** A switch to another row: what the active row then is. */
  lemma SwitchedStatus(w: World, act: Action, p: Proc)
    requires Inv(w) && Held(w) && Moves(w, act, p) && SwitchFrom(p, act.c, Step(w, act).link)
    ensures p.Supervisor? && p.sup.Deploy? ==>
              || HasStatus(w.db.rows, p.sup.deploy.a.txId, Deploying)
              || HasStatus(w.db.rows, p.sup.deploy.a.txId, DeployFailed)
    ensures p.Supervisor? && p.sup.Deploy? ==>
              forall status :: ActiveIs(Step(w, act), status) <==> HasStatus(w.db.rows, p.sup.deploy.a.txId, status)
    ensures p.Supervisor? && p.sup.Rollback? ==>
              forall status ::
                ActiveIs(Step(w, act), status) <==> HasStatus(w.db.rows, p.sup.rollback.target.txId, status)
    ensures p.Supervisor? && p.sup.Rollback? ==> !HasStatus(w.db.rows, p.sup.rollback.target.txId, DeployFailed)
  {
    hide Step, Next, OneHolder;
    assert ProcOk(w, p) && HoldOk(w, p);
    SwitchTargets(w, p, act.c, Step(w, act).link);
    SwitchesComeFrom(w, p, act.c, Step(w, act).link);
    var tx := if p.sup.Deploy? then p.sup.deploy.a.txId else p.sup.rollback.target.txId;
    hide Inv, Held;
    ActiveAfter(w, act, IndexOf(w.db.rows, tx));
  }

  /** How a row that is active comes to have failed. */
  lemma FailsActive(w: World, act: Action, i: nat)
    requires Inv(w) && Held(w) && i < |w.db.rows| && w.link == w.db.rows[i].binPath
    requires !w.db.rows[i].status.DeployFailed?
    ensures StatusAfter(w.db.rows[i], StmtOf(w, act)) == DeployFailed
            <==> Moves(w, act, Supervisor(Main(Cleanup))) && w.db.rows[i].status == Deploying
  {
    hide Inv, Held, Next;
    if act.Run? && act.i < |w.procs| {
      var p := w.procs[act.i];
      UpdatesComeFrom(w, p, act.c);
      SwitchesComeFrom(w, p, act.c, "");
      HolderIsOff(w, p, act.i, i);
    }
  }

  /** How a row that is active comes to be rolled back. */
  lemma RollsActiveBack(w: World, act: Action, i: nat)
    requires Inv(w) && i < |w.db.rows| && w.link == w.db.rows[i].binPath && !w.db.rows[i].status.RolledBack?
    ensures StatusAfter(w.db.rows[i], StmtOf(w, act)) == RolledBack <==> MarksActive(w, act)
  {
    hide Inv, Next, MarksActive;
    if act.Run? && act.i < |w.procs| {
      UpdatesComeFrom(w, w.procs[act.i], act.c);
      MarkIsOf(w, act, i);
    } else {
      assert !MarksActive(w, act) by { OnlyRunsMark(w, act); }
    }
  }

  lemma OnlyRunsMark(w: World, act: Action)
    requires !act.Run? || |w.procs| <= act.i
    ensures !MarksActive(w, act)
  {
  }

  /** A step that does not move the link. */
  lemma UnswitchedStatus(w: World, act: Action)
    requires Inv(w) && Held(w) && Step(w, act).link == w.link
    ensures !ActiveIs(w, DeployFailed) ==>
              (ActiveIs(Step(w, act), DeployFailed)
               <==> Moves(w, act, Supervisor(Main(Cleanup))) && ActiveIs(w, Deploying))
    ensures !ActiveIs(w, RolledBack) ==> (ActiveIs(Step(w, act), RolledBack) <==> MarksActive(w, act))
  {
    hide Step, StmtOf, StatusAfter, Held, MarksActive, ActiveIs, Inv;
    var i := ActiveRow(w);
    ActiveAfter(w, act, i);
    if !ActiveIs(w, DeployFailed) {
      FailsActive(w, act, i);
    }
    if !ActiveIs(w, RolledBack) {
      RollsActiveBack(w, act, i);
    }
  }

  /** A supervisor that fails a deployment has not switched to it. */
  lemma HolderIsOff(w: World, p: Proc, k: nat, i: nat)
    requires Inv(w) && Held(w) && k < |w.procs| && w.procs[k] == p && i < |w.db.rows| && w.link == w.db.rows[i].binPath
    ensures Unswitched(p) ==> Holder(p).value != w.db.rows[i].txId
  {
    assert HoldOk(w, p);
    IndexUnique(w.db.rows, i);
  }

  /** The active row is marked rolled back exactly by a supervisor at that mark. */
  lemma MarkIsOf(w: World, act: Action, i: nat)
    requires Inv(w) && i < |w.db.rows| && w.link == w.db.rows[i].binPath && act.Run? && act.i < |w.procs|
    ensures MarksActive(w, act)
            <==> w.db.rows[i].status.RollbackPending? && StatusAfter(w.db.rows[i], StmtOf(w, act)) == RolledBack
  {
    hide Next;
    var p := w.procs[act.i];
    IndexUnique(w.db.rows, i);
    RowOfTx(w, w.db.rows[i].txId);
    UpdatesComeFrom(w, p, act.c);
    if p.Supervisor? && p.sup.Rollback? && p.sup.rollback.MarkRolledBack? {
      MarkStatement(w, p.sup.rollback.a, p.sup.site, act.c);
      if Has(w.db.rows, p.sup.rollback.a.txId) {
        RowOfTx(w, p.sup.rollback.a.txId);
      }
    }
  }

  lemma MarkStatement(w: World, a: Row, site: Site, c: Choice)
    ensures Next(w, Supervisor(Rollback(MarkRolledBack(a), site)), c).stmt
            == Update(a.txId, RollbackPending, TransitionWrite(RolledBack, ""), None)
  {
  }

  /** A switch in the statement of a step is where the link goes. */
  lemma SwitchGoes(w: World, act: Action, path: string)
    requires act.Run? && act.i < |w.procs| && SwitchFrom(w.procs[act.i], act.c, path)
    ensures Step(w, act).link == path
  {
    hide Step, Next, SwitchFrom;
    SwitchesComeFrom(w, w.procs[act.i], act.c, path);
    StepIsStatement(w, act);
    LinkAfterStatement(w, StmtOf(w, act), act.c.now);
  }

  lemma SwitchesToGoes(w: World, act: Action, status: Status)
    requires Inv(w) && Held(w) && SwitchesTo(w, act, status)
    ensures Step(w, act).link != w.link
    ensures SwitchFrom(w.procs[act.i], act.c, Step(w, act).link)
  {
    hide Step;
    var p := w.procs[act.i];
    assert ProcOk(w, p) && HoldOk(w, p);
    SwitchGoes(w, act, p.sup.deploy.a.binPath);
  }

  lemma SwitchesBackGoes(w: World, act: Action, status: Status)
    requires Inv(w) && SwitchesBackTo(w, act, status)
    ensures SwitchFrom(w.procs[act.i], act.c, Step(w, act).link)
    ensures Step(w, act).link == w.link ==> ActiveIs(w, status)
  {
    hide Step;
    var p := w.procs[act.i];
    assert ProcOk(w, p);
    SwitchGoes(w, act, p.sup.rollback.target.binPath);
  }

  lemma MarkGoesNowhere(w: World, act: Action)
    requires MarksActive(w, act)
    ensures Step(w, act).link == w.link
  {
    hide Step, HasStatus, Next;
    var p := w.procs[act.i];
    MarkStatement(w, p.sup.rollback.a, p.sup.site, act.c);
    LinkUnlessSwitched(w, act);
  }

  lemma CleanupGoesNowhere(w: World, act: Action)
    requires Moves(w, act, Supervisor(Main(Cleanup)))
    ensures Step(w, act).link == w.link
  {
    hide Step, Next;
    SwitchesComeFrom(w, Supervisor(Main(Cleanup)), act.c, "");
    LinkUnlessSwitched(w, act);
  }

  lemma StartedFromBootstrap(w: World, act: Action)
    requires Inv(w) && act.StartContainer?
    ensures !ActiveIs(Step(w, act), DeployFailed) && !ActiveIs(Step(w, act), RolledBack)
  {
    hide Step;
    BootstrapRow(w);
    StepIsStatement(w, act);
    hide Inv, BinPath;
    ActiveAfter(w, act, 0);
  }

  /**
   The active artifact becomes one whose deployment failed exactly in two ways: a startup cleanup while the
   active row is deploying, or a switch to a row that another supervisor's cleanup has already failed.
   */
  lemma BecomesFailedIff(w0: World, acts: seq<Action>, act: Action)
    requires Initial(w0) && !ActiveIs(Execute(w0, acts), DeployFailed)
    ensures var w := Execute(w0, acts);
            ActiveIs(Step(w, act), DeployFailed)
            <==> || (Moves(w, act, Supervisor(Main(Cleanup))) && ActiveIs(w, Deploying))
                 || SwitchesTo(w, act, DeployFailed)
  {
    HeldAlways(w0, acts);
    FailedIff(Execute(w0, acts), act);
  }

  lemma FailedIff(w: World, act: Action)
    requires Inv(w) && Held(w) && !ActiveIs(w, DeployFailed)
    ensures ActiveIs(Step(w, act), DeployFailed)
            <==> || (Moves(w, act, Supervisor(Main(Cleanup))) && ActiveIs(w, Deploying))
                 || SwitchesTo(w, act, DeployFailed)
  {
    hide Step, Inv, Held, ActiveIs, HasStatus;
    if SwitchesTo(w, act, DeployFailed) {
      SwitchesToGoes(w, act, DeployFailed);
    }
    if Moves(w, act, Supervisor(Main(Cleanup))) {
      CleanupGoesNowhere(w, act);
    }
    if Step(w, act).link == w.link {
      UnswitchedStatus(w, act);
    } else {
      LinkAfter(w, act);
      if act.StartContainer? {
        StartedFromBootstrap(w, act);
      } else {
        SwitchedStatus(w, act, w.procs[act.i]);
      }
    }
  }

  /**
   The active artifact becomes one that has been rolled back exactly in two ways: a switch back to a base
   that has been rolled back, or the mark of a pending rollback of the artifact another supervisor switched to.
   */
  lemma BecomesRolledBackIff(w0: World, acts: seq<Action>, act: Action)
    requires Initial(w0) && !ActiveIs(Execute(w0, acts), RolledBack)
    ensures var w := Execute(w0, acts);
            ActiveIs(Step(w, act), RolledBack) <==> SwitchesBackTo(w, act, RolledBack) || MarksActive(w, act)
  {
    HeldAlways(w0, acts);
    RolledBackIff(Execute(w0, acts), act);
  }

  lemma RolledBackIff(w: World, act: Action)
    requires Inv(w) && Held(w) && !ActiveIs(w, RolledBack)
    ensures ActiveIs(Step(w, act), RolledBack) <==> SwitchesBackTo(w, act, RolledBack) || MarksActive(w, act)
  {
    hide Step, Inv, Held, ActiveIs, MarksActive;
    if SwitchesBackTo(w, act, RolledBack) {
      SwitchesBackGoes(w, act, RolledBack);
    }
    if MarksActive(w, act) {
      MarkGoesNowhere(w, act);
    }
    if Step(w, act).link == w.link {
      UnswitchedStatus(w, act);
    } else {
      LinkAfter(w, act);
      if act.StartContainer? {
        StartedFromBootstrap(w, act);
      } else {
        SwitchedStatus(w, act, w.procs[act.i]);
      }
    }
  }

  // ------------------------------------------------- one supervisor, fresh starts

  /** No supervisor runs. Workers, watchers and builds left behind may. */
  predicate NoSupervisor(procs: seq<Proc>) {
    forall i :: 0 <= i < |procs| ==> !procs[i].Supervisor?
  }

  /** Every start is a start of the container, made when no supervisor runs. */
  ghost predicate FreshStarts(w0: World, acts: seq<Action>)
    decreases |acts|
  {
    acts == [] ||
    var init, last := acts[..|acts| - 1], acts[|acts| - 1];
    && FreshStarts(w0, init)
    && !last.StartSupervisor?
    && (last.StartContainer? ==> NoSupervisor(Execute(w0, init).procs))
  }

  /** A supervisor that has not yet cleaned up. */
  predicate StartingUp(p: Proc) {
    p.Supervisor? && p.sup.Main?
    && (p.sup.main.Ensure? || p.sup.main.EnsureInsert? || p.sup.main.EnsureLog? || p.sup.main.Cleanup?)
  }

  ghost predicate Sole(w: World) {
    && (forall i, j :: 0 <= i < j < |w.procs| ==> !w.procs[i].Supervisor? || !w.procs[j].Supervisor?)
    && (forall i :: 0 <= i < |w.procs| && StartingUp(w.procs[i]) ==> w.link == BinPath(w.root, BOOTSTRAP))
    && (forall i :: 0 <= i < |w.procs| && Holder(w.procs[i]).Some? ==>
          HasStatus(w.db.rows, Holder(w.procs[i]).value, Deploying))
    && !ActiveIs(w, DeployFailed)
  }

  /** Where a supervisor comes from. */
  lemma SupervisorBefore(w: World, act: Action, i: nat)
    requires i < |Step(w, act).procs| && Step(w, act).procs[i].Supervisor?
    ensures var q := Step(w, act).procs[i];
            || (i < |w.procs| && q == w.procs[i] && !(act.Run? && act.i == i))
            || (act.Run? && act.i == i < |w.procs| && w.procs[i].Supervisor? && q == Next(w, w.procs[i], act.c).next)
            || ((act.StartContainer? || act.StartSupervisor?) && i == |w.procs| && q == Supervisor(Main(Ensure)))
  {
    hide NextSupervisor, NextWatcher, NextWorker, Apply;
    if act.Run? && act.i < |w.procs| {
      SpawnsNoSupervisor(w, w.procs[act.i], act.c);
    }
  }

  lemma SpawnsNoSupervisor(w: World, p: Proc, c: Choice)
    ensures forall q :: q in Next(w, p, c).spawn ==> !q.Supervisor?
    ensures Next(w, p, c).next.Supervisor? ==> p.Supervisor?
  {
    hide IndexOf, Matches, Insert, LatestWithStatus, FirstApproved, Cleaned, NullIfEmpty, BinPath, HasBase, Has;
  }

  /** Start-up is only entered by a start, and it does not switch. */
  lemma StartUpStep(w: World, p: Proc, c: Choice)
    requires StartingUp(Next(w, p, c).next)
    ensures StartingUp(p) && !Next(w, p, c).stmt.Switch?
  {
    hide IndexOf, Matches, Insert, LatestWithStatus, FirstApproved, Cleaned, NullIfEmpty, BinPath, HasBase, Has;
  }

  lemma OneSupervisorStep(w: World, act: Action)
    requires Sole(w) && !act.StartSupervisor? && (act.StartContainer? ==> NoSupervisor(w.procs))
    ensures var procs := Step(w, act).procs;
            forall i, j :: 0 <= i < j < |procs| ==> !procs[i].Supervisor? || !procs[j].Supervisor?
  {
    hide Step, ActiveIs, HasStatus;
    var procs := Step(w, act).procs;
    forall i, j | 0 <= i < j < |procs| && procs[i].Supervisor? && procs[j].Supervisor?
      ensures false
    {
      SupervisorBefore(w, act, i);
      SupervisorBefore(w, act, j);
    }
  }

  /** While a supervisor starts up the link stays at bootstrap. */
  lemma StartUpKeepsLink(w: World, act: Action, i: nat)
    requires Sole(w) && !act.StartSupervisor? && (act.StartContainer? ==> NoSupervisor(w.procs))
    requires i < |Step(w, act).procs| && StartingUp(Step(w, act).procs[i])
    ensures Step(w, act).link == BinPath(w.root, BOOTSTRAP)
  {
    hide Step, Next, ActiveIs, HasStatus, BinPath;
    SupervisorBefore(w, act, i);
    if act.StartContainer? {
      StepIsStatement(w, act);
    } else {
      if act.Run? && act.i == i {
        StartUpStep(w, w.procs[i], act.c);
        LinkUnlessSwitched(w, act);
      } else if Step(w, act).link != w.link {
        LinkAfter(w, act);
      }
    }
  }

  /** The sole supervisor's claimed row stays deploying. */
  lemma HolderStaysDeploying(w: World, act: Action, i: nat)
    requires Inv(w) && Held(w) && Sole(w)
    requires i < |Step(w, act).procs| && Holder(Step(w, act).procs[i]).Some?
    ensures HasStatus(Step(w, act).db.rows, Holder(Step(w, act).procs[i]).value, Deploying)
  {
    hide Step, Next, ActiveIs, FirstApproved, Inv, Held;
    SupervisorBefore(w, act, i);
    var q := Step(w, act).procs[i];
    var tx := Holder(q).value;
    if act.Run? && act.i == i {
      HoldMoves(w, w.procs[i], act.c);
      if w.procs[i] == Supervisor(Deploy(Claim)) && FirstApproved(w.db.rows).Some? {
        ClaimHolds(w, act);
        ClaimedNow(w, act);
      } else {
        SwitchesComeFrom(w, w.procs[i], act.c, "");
        SameRow(w, act, tx);
      }
    } else {
      OthersSpareDeploying(w, act, i);
      SameRow(w, act, tx);
    }
  }

  lemma ClaimedNow(w: World, act: Action)
    requires Inv(w) && Moves(w, act, Supervisor(Deploy(Claim))) && FirstApproved(w.db.rows).Some?
    ensures HasStatus(Step(w, act).db.rows, w.db.rows[FirstApproved(w.db.rows).value].txId, Deploying)
  {
    hide Step, FirstApproved;
    var i := FirstApproved(w.db.rows).value;
    IndexUnique(w.db.rows, i);
    SameRow(w, act, w.db.rows[i].txId);
    ClaimStatement(w, act.c);
  }

  /** No other process touches the row that the sole supervisor deploys. */
  lemma OthersSpareDeploying(w: World, act: Action, i: nat)
    requires Inv(w) && Held(w) && Sole(w) && i < |w.procs| && Holder(w.procs[i]).Some? && !(act.Run? && act.i == i)
    ensures var k := IndexOf(w.db.rows, Holder(w.procs[i]).value);
            k < |w.db.rows| && StatusAfter(w.db.rows[k], StmtOf(w, act)) == Deploying
  {
    hide Next, ActiveIs;
    assert HoldOk(w, w.procs[i]);
    if act.Run? && act.i < |w.procs| {
      var p := w.procs[act.i];
      assert ProcOk(w, p) && !p.Supervisor?;
      UpdatesComeFrom(w, p, act.c);
      SwitchesComeFrom(w, p, act.c, "");
    }
  }

  lemma SoleStep(w: World, act: Action)
    requires Inv(w) && Held(w) && Sole(w)
    requires !act.StartSupervisor? && (act.StartContainer? ==> NoSupervisor(w.procs))
    ensures Sole(Step(w, act))
  {
    hide Step, Inv, Held, ActiveIs, HasStatus, BinPath, StartingUp, Holder, SwitchesTo;
    var w' := Step(w, act);
    OneSupervisorStep(w, act);
    StepIsStatement(w, act);
    forall i | 0 <= i < |w'.procs| && StartingUp(w'.procs[i])
      ensures w'.link == BinPath(w'.root, BOOTSTRAP)
    {
      StartUpKeepsLink(w, act, i);
    }
    forall i | 0 <= i < |w'.procs| && Holder(w'.procs[i]).Some?
      ensures HasStatus(w'.db.rows, Holder(w'.procs[i]).value, Deploying)
    {
      HolderStaysDeploying(w, act, i);
    }
    FailedIff(w, act);
    NeitherWay(w, act);
  }

  /** Neither of the two ways is open to a sole supervisor that was started with its container. */
  lemma NeitherWay(w: World, act: Action)
    requires Inv(w) && Sole(w)
    ensures !(Moves(w, act, Supervisor(Main(Cleanup))) && ActiveIs(w, Deploying)) && !SwitchesTo(w, act, DeployFailed)
  {
    hide Step;
    if Moves(w, act, Supervisor(Main(Cleanup))) {
      assert StartingUp(w.procs[act.i]);
      BootstrapRow(w);
      OnlyActive(w, 0);
    }
  }

  /**
   If every supervisor is started with its container, and only when no supervisor runs, the active artifact
   is never one whose deployment failed, whoever is killed whenever.
   */
  lemma FreshStartsNeverRunFailed(w0: World, acts: seq<Action>)
    requires Initial(w0) && FreshStarts(w0, acts)
    ensures !ActiveIs(Execute(w0, acts), DeployFailed)
  {
    SoleAlways(w0, acts);
  }

  lemma {:induction false} SoleAlways(w0: World, acts: seq<Action>)
    requires Initial(w0) && FreshStarts(w0, acts)
    ensures Sole(Execute(w0, acts))
  {
    hide Step, Inv, Held, Sole, Initial;
    if acts == [] {
      SoleAtFirst(w0);
    } else {
      var init := acts[..|acts| - 1];
      SoleAlways(w0, init);
      HeldAlways(w0, init);
      SoleStep(Execute(w0, init), acts[|acts| - 1]);
    }
  }

  lemma SoleAtFirst(w0: World)
    requires Initial(w0)
    ensures Sole(Execute(w0, []))
  {
    InitialOk(w0);
    OnlyActive(w0, 0);
  }
}

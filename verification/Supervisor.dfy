/**
 The supervisor's routines over the store and the active link, each run without interruption, and the
 loop head that drains pending rollbacks before a worker is started.
 */
module Supervisor {
  import opened Options
  import opened ArtifactStatus
  import opened ArtifactTable
  import opened ArtifactStore
  import opened RollbackDrain
  import Text

  /** What the file system answers during one call. */
  datatype Files = Files(canSwitch: bool, canRead: bool, message: string)

  datatype Failure = NoArtifact | NoBase | SwitchFailure | DigestFailure | MarkFailure

  /** What a routine leaves behind: the store, the link and its return value. */
  datatype Outcome = Outcome(db: Db, link: string, result: Result<bool, Failure>)

  function RollbackOutcome(db: Db, link: string, a: Row, files: Files, now: int): Outcome {
    var base := BaseString(a);
    if !Has(db.rows, base) then Outcome(db, link, Err(NoBase))
    else if !files.canSwitch then Outcome(Logged(db, RollbackAttemptedEvent, base), link, Err(SwitchFailure))
    else
      var link' := db.rows[IndexOf(db.rows, base)].binPath;
      if !Matches(db.rows, a.txId, RollbackPending) then Outcome(db, link', Ok(false))
      else
        var marked := Cas(db, a.txId, RollbackPending, TransitionWrite(RolledBack, ""), None, now);
        Outcome(Logged(Logged(marked, RollbackAttemptedEvent, base), RollbackCompletedEvent, a.txId), link', Ok(true))
  }

  function PendingOutcome(db: Db, link: string, files: Files, now: int): Outcome {
    match LatestWithStatus(db.rows, RollbackPending)
    case None => Outcome(db, link, Err(NoArtifact))
    case Some(i) => RollbackOutcome(db, link, db.rows[i], files, now)
  }

  function CrashOutcome(db: Db, link: string, files: Files, now: int): Outcome {
    match LatestWithStatus(db.rows, DeployedUnstable)
    case None => Outcome(db, link, Err(NoArtifact))
    case Some(i) =>
      var a := db.rows[i];
      if !HasBase(a) then Outcome(db, link, Ok(false))
      else
        RollbackOutcome(Cas(db, a.txId, DeployedUnstable, TransitionWrite(RollbackPending, ""), None, now),
                        link, a, files, now)
  }

  function PromoteOutcome(db: Db, link: string, now: int): Outcome {
    match LatestWithStatus(db.rows, DeployedUnstable)
    case None => Outcome(db, link, Err(NoArtifact))
    case Some(i) =>
      var tx := db.rows[i].txId;
      Outcome(Logged(Cas(db, tx, DeployedUnstable, TransitionWrite(Promoted, ""), None, now), PromotedEvent, tx),
              link, Ok(true))
  }

  /** Whether the recorded digest, if any, is the digest of the file at the artifact's path. */
  predicate DigestAgrees(a: Row, disk: map<string, string>, files: Files) {
    a.sha256.Some? && NullIfEmpty(a.sha256.value).Some? ==>
      files.canRead && a.binPath in disk && disk[a.binPath] == a.sha256.value
  }

  /** What becomes of an artifact that has been claimed. */
  function ClaimedOutcome(db: Db, link: string, a: Row, disk: map<string, string>, files: Files, now: int): Outcome {
    var failed :=
      Logged(Cas(db, a.txId, Deploying, DeployFailedWrite(files.message), None, now), DeployFailedEvent, a.txId);
    if !DigestAgrees(a, disk, files) then Outcome(failed, link, Err(DigestFailure))
    else if !files.canSwitch then Outcome(failed, link, Err(SwitchFailure))
    else if !Matches(db.rows, a.txId, Deploying) then Outcome(db, a.binPath, Err(MarkFailure))
    else
      Outcome(Logged(Cas(db, a.txId, Deploying, Write(DeployedUnstable, deployFinished := true), None, now),
                     DeployCompletedEvent, a.txId),
              a.binPath, Ok(true))
  }

  function DeployOutcome(db: Db, link: string, disk: map<string, string>, files: Files, now: int): Outcome {
    match FirstApproved(db.rows)
    case None => Outcome(db, link, Ok(false))
    case Some(i) =>
      var a := db.rows[i];
      var claimed := Cas(db, a.txId, Approved, Write(Deploying, deployStarted := true), None, now);
      ClaimedOutcome(Logged(claimed, DeployStartedEvent, a.txId), link, a.(status := Deploying), disk, files, now)
  }

  /** The bootstrap record is made when no artifact is promoted and the active binary is there. */
  function EnsureOutcome(db: Db, link: string, there: bool, now: int): Db {
    if LatestPromotedTx(db.rows) != "" || Text.IsBlank(link) || !there then db
    else
      match EnsureBootstrap(db, BOOTSTRAP, link, now)
      case Ok(db') => Logged(db', PromotedEvent, BOOTSTRAP)
      case Err(_) => db
  }

  /** How a worker's run is judged when it has ended. */
  datatype Finding = RanStably | RanShortly | CrashLooped

  /** The loop head, and the deployment unless something was rolled back. */
  function HeadOutcome(db: Db, link: string, disk: map<string, string>, files: Files, now: int): Outcome {
    var o := PendingOutcome(db, link, files, now);
    if o.result == Ok(true) then o else DeployOutcome(o.db, o.link, disk, files, now).(result := Ok(false))
  }

  /** What follows the end of a worker; `Ok(true)` when a rollback was made. */
  function ExitOutcome(db: Db, link: string, finding: Finding, knownGood: bool, files: Files, now: int): Outcome {
    match finding
    case RanShortly => Outcome(db, link, Ok(false))
    case RanStably => PromoteOutcome(db, link, now).(result := Ok(false))
    case CrashLooped =>
      var o := CrashOutcome(Logged(db, Unrelated, ""), link, files, now);
      if o.result == Ok(true) then o
      else Outcome(if knownGood then Logged(o.db, RollbackAttemptedEvent, "") else o.db, o.link, Ok(false))
  }

  class SupervisorProcess {
    const store: Store
    var link: string

    constructor (store: Store, link: string)
      ensures this.store == store && this.link == link
    {
      this.store := store;
      this.link := link;
    }

    function Local(): Local
      reads this, store
    {
      RollbackDrain.Local.Local(store.rows, link)
    }

    /** The rename of a fresh symlink over the active one: it takes effect completely or not at all. */
    method AtomicSwitchSymlink(path: string, files: Files) returns (ok: bool)
      modifies this`link
      ensures ok == files.canSwitch && link == if ok then path else old(link)
    {
      ok := files.canSwitch;
      if ok {
        link := path;
      }
    }

    method ExecuteArtifactRollback(a: Row, files: Files, now: int) returns (r: Result<bool, Failure>)
      modifies this`link, store
      ensures Outcome(store.Contents(), link, r) == RollbackOutcome(old(store.Contents()), old(link), a, files, now)
    {
      var base := store.GetArtifactByTxID(BaseString(a));
      if base.Err? {
        return Err(NoBase);
      }
      var switched := AtomicSwitchSymlink(base.value.binPath, files);
      if !switched {
        store.LogEvent(RollbackAttemptedEvent, BaseString(a));
        return Err(SwitchFailure);
      }
      var marked := store.MarkArtifactRolledBack(a.txId, now);
      if marked != Ok(true) {
        return Ok(false);
      }
      store.LogEvent(RollbackAttemptedEvent, BaseString(a));
      store.LogEvent(RollbackCompletedEvent, a.txId);
      return Ok(true);
    }

    method ProcessPendingRollback(files: Files, now: int) returns (r: Result<bool, Failure>)
      modifies this`link, store
      ensures Outcome(store.Contents(), link, r) == PendingOutcome(old(store.Contents()), old(link), files, now)
    {
      var pending := store.LatestArtifactByStatus(RollbackPending);
      if pending.Err? {
        return Err(NoArtifact);
      }
      r := ExecuteArtifactRollback(pending.value, files, now);
    }

    method AttemptArtifactRollback(files: Files, now: int) returns (r: Result<bool, Failure>)
      modifies this`link, store
      ensures Outcome(store.Contents(), link, r) == CrashOutcome(old(store.Contents()), old(link), files, now)
    {
      var found := store.LatestArtifactByStatus(DeployedUnstable);
      if found.Err? {
        return Err(NoArtifact);
      }
      var a := found.value;
      if !HasBase(a) {
        return Ok(false);
      }
      assert Hit(store.rows[LatestWithStatus(store.rows, DeployedUnstable).value], a.txId, DeployedUnstable);
      var marked := store.MarkArtifactRollbackPending(a.txId, now);
      if marked != Ok(true) {
        return Ok(false);
      }
      r := ExecuteArtifactRollback(a, files, now);
    }

    method PromoteLatestDeployedArtifact(now: int) returns (r: Result<bool, Failure>)
      modifies store
      ensures Outcome(store.Contents(), link, r) == PromoteOutcome(old(store.Contents()), link, now)
    {
      var found := store.LatestArtifactByStatus(DeployedUnstable);
      if found.Err? {
        return Err(NoArtifact);
      }
      var tx := found.value.txId;
      assert Hit(store.rows[LatestWithStatus(store.rows, DeployedUnstable).value], tx, DeployedUnstable);
      var marked := store.MarkArtifactPromoted(tx, now);
      if marked != Ok(true) {
        return Ok(false);
      }
      store.LogEvent(PromotedEvent, tx);
      return Ok(true);
    }

    method DeployApprovedArtifact(disk: map<string, string>, files: Files, now: int) returns (r: Result<bool, Failure>)
      modifies this`link, store
      ensures Outcome(store.Contents(), link, r) == DeployOutcome(old(store.Contents()), old(link), disk, files, now)
    {
      var claimed := store.ClaimApprovedArtifactForDeploy(now);
      if claimed.None? {
        return Ok(false);
      }
      var a := claimed.value;
      store.LogEvent(DeployStartedEvent, a.txId);
      if a.sha256.Some? && NullIfEmpty(a.sha256.value).Some? {
        if !files.canRead || a.binPath !in disk || disk[a.binPath] != a.sha256.value {
          var _ := store.MarkArtifactDeployFailed(a.txId, files.message, now);
          store.LogEvent(DeployFailedEvent, a.txId);
          return Err(DigestFailure);
        }
      }
      var switched := AtomicSwitchSymlink(a.binPath, files);
      if !switched {
        var _ := store.MarkArtifactDeployFailed(a.txId, files.message, now);
        store.LogEvent(DeployFailedEvent, a.txId);
        return Err(SwitchFailure);
      }
      var marked := store.MarkArtifactDeployCompleted(a.txId, now);
      if !marked {
        return Err(MarkFailure);
      }
      store.LogEvent(DeployCompletedEvent, a.txId);
      return Ok(true);
    }

    /** At startup; `there` says whether the file behind the link exists. */
    method EnsureBootstrapRecord(there: bool, now: int) returns (made: bool)
      modifies store
      ensures store.Contents() == EnsureOutcome(old(store.Contents()), link, there, now)
      ensures !made ==> store.Contents() == old(store.Contents())
      ensures made <==> there && !Text.IsBlank(link) && LatestPromotedTx(old(store.rows)) == ""
      ensures made && (forall j :: 0 <= j < |old(store.rows)| ==> old(store.rows)[j].txId != "bootstrap") ==>
                && store.rows == old(store.rows) + [Row("bootstrap", None, Text.TrimSpace(link), None, None,
                                                        None, None, Promoted, None, now, now)]
                && store.log == old(store.log) + [Event(PromotedEvent, "bootstrap")]
    {
      var latest := store.LatestPromotedTxID();
      if latest != "" || Text.IsBlank(link) || !there {
        return false;
      }
      BootstrapIsNoBlank(store.Contents(), link, now);
      var _ := store.EnsureBootstrapPromotedArtifact(BOOTSTRAP, link, now);
      store.LogEvent(PromotedEvent, BOOTSTRAP);
      return true;
    }

    /** One pass of the main loop up to the start of a worker; true when it begins again after a rollback. */
    method BeforeWorker(disk: map<string, string>, files: Files, now: int) returns (again: bool)
      modifies this`link, store
      ensures Outcome(store.Contents(), link, Ok(again))
              == HeadOutcome(old(store.Contents()), old(link), disk, files, now)
      ensures again ==> LatestWithStatus(old(store.rows), RollbackPending).Some?
      ensures LatestWithStatus(old(store.rows), RollbackPending).None? ==>
                Outcome(store.Contents(), link, Ok(false))
                == DeployOutcome(old(store.Contents()), old(link), disk, files, now).(result := Ok(false))
    {
      var rolledBack := ProcessPendingRollback(files, now);
      if rolledBack == Ok(true) {
        return true;
      }
      var _ := DeployApprovedArtifact(disk, files, now);
      return false;
    }

    /** The end of a worker: promote after a stable run, and after a crash loop roll back or say that it failed. */
    method AfterWorker(finding: Finding, knownGood: bool, files: Files, now: int) returns (rolledBack: bool)
      modifies this`link, store
      ensures Outcome(store.Contents(), link, Ok(rolledBack))
              == ExitOutcome(old(store.Contents()), old(link), finding, knownGood, files, now)
      ensures finding == RanShortly ==> store.Contents() == old(store.Contents()) && link == old(link)
      ensures finding != CrashLooped ==> link == old(link) && !rolledBack
      ensures rolledBack ==> finding == CrashLooped && LatestWithStatus(old(store.rows), DeployedUnstable).Some?
    {
      match finding {
        case RanStably =>
          var _ := PromoteLatestDeployedArtifact(now);
          return false;
        case RanShortly =>
          return false;
        case CrashLooped =>
          store.LogEvent(Unrelated, "");
          var r := AttemptArtifactRollback(files, now);
          if r == Ok(true) {
            return true;
          }
          if knownGood {
            store.LogEvent(RollbackAttemptedEvent, "");
          }
          return false;
      }
    }

    /**
     The loop head with working switches: it repeats exactly once for each pending row, and leaves the
     link at the base of the lowest-id pending row and every pending row rolled back.
     */
    method DrainPendingRollbacks(clock: nat -> int, message: string) returns (iterations: nat)
      requires Drainable(store.rows)
      modifies this`link, store
      ensures iterations == PendingCount(old(store.rows))
      ensures PendingCount(store.rows) == 0 && FinalRows(store.rows) == FinalRows(old(store.rows))
      ensures link == FinalLink(old(Local()))
    {
      iterations := 0;
      var files := Files(canSwitch := true, canRead := true, message := message);
      var r := ProcessPendingRollback(files, clock(0));
      PendingIsDrainStep(old(store.Contents()), old(link), files, clock(0));
      while r == Ok(true)
        invariant Drainable(store.rows)
        invariant FinalRows(store.rows) == FinalRows(old(store.rows))
        invariant FinalLink(Local()) == FinalLink(old(Local()))
        invariant iterations + PendingCount(store.rows) + (if r == Ok(true) then 1 else 0)
                  == PendingCount(old(store.rows))
        invariant r != Ok(true) ==> PendingCount(store.rows) == 0
        decreases PendingCount(store.rows), r == Ok(true)
      {
        iterations := iterations + 1;
        ghost var before, linkBefore := store.Contents(), link;
        r := ProcessPendingRollback(files, clock(iterations));
        PendingIsDrainStep(before, linkBefore, files, clock(iterations));
      }
      CountZero(store.rows);
    }
  }

  /** The record's two fields are not blank, so making it does not fail. */
  lemma BootstrapIsNoBlank(db: Db, link: string, now: int)
    requires !Text.IsBlank(link)
    ensures EnsureBootstrap(db, BOOTSTRAP, link, now).Ok? && !Text.IsBlank(BOOTSTRAP)
    ensures Text.TrimSpace(BOOTSTRAP) == BOOTSTRAP
  {
    Text.BlankIffNothing(link);
    assert !Text.IsSpace(BOOTSTRAP[0]);
    Text.TrimmedStays(BOOTSTRAP);
  }

  /** With a working switch, a pass of the loop head is a whole pass of the drain. */
  lemma PendingIsDrainStep(db: Db, link: string, files: Files, now: int)
    requires Drainable(db.rows) && files.canSwitch
    ensures var o := PendingOutcome(db, link, files, now);
            var s := Local(db.rows, link);
            && Local(o.db.rows, o.link) == DrainStep(s, now)
            && o.result == (if PendingCount(db.rows) > 0 then Ok(true) else Err(NoArtifact))
            && Drainable(o.db.rows)
            && FinalRows(o.db.rows) == FinalRows(db.rows)
            && FinalLink(Local(o.db.rows, o.link)) == FinalLink(s)
            && PendingCount(o.db.rows) == (if PendingCount(db.rows) > 0 then PendingCount(db.rows) - 1 else 0)
  {
    var s := Local(db.rows, link);
    CountZero(db.rows);
    StepKeepsFinal(s, now);
    match LatestWithStatus(db.rows, RollbackPending)
    case None =>
    case Some(i) =>
      assert Hit(db.rows[i], db.rows[i].txId, RollbackPending);
      StepCounts(s, now);
  }
}

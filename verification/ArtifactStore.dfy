/**
 The store of internal/db: one object holding the artifacts table and the event log, with the
 repository's statements as methods. Each method is one SQL statement or one transaction and takes the
 clock reading `now` that SQLite's unixepoch() would return.
 */
module ArtifactStore {
  import opened Options
  import opened ArtifactStatus
  import opened ArtifactTable
  import Text

  class Store {
    var rows: seq<Row>
    var log: seq<Event>

    constructor ()
      ensures Contents() == Db([], [])
    {
      rows, log := [], [];
    }

    function Contents(): Db
      reads this
    {
      Db(rows, log)
    }

    // -------------------------------------------------------------- queries

    method GetArtifactByTxID(tx: string) returns (r: Result<Row, DbError>)
      ensures r == if Has(rows, tx) then Ok(rows[IndexOf(rows, tx)]) else Err(ArtifactNotFound)
    {
      var i := 0;
      while i < |rows|
        invariant 0 <= i <= |rows|
        invariant forall j :: 0 <= j < i ==> rows[j].txId != tx
      {
        if rows[i].txId == tx {
          return Ok(rows[i]);
        }
        i := i + 1;
      }
      return Err(ArtifactNotFound);
    }

    method LatestArtifactByStatus(status: Status) returns (r: Result<Row, DbError>)
      ensures r == match LatestWithStatus(rows, status)
                   case None => Err(ArtifactNotFound)
                   case Some(i) => Ok(rows[i])
    {
      var i := |rows|;
      while 0 < i
        invariant 0 <= i <= |rows|
        invariant forall j :: i <= j < |rows| ==> rows[j].status != status
      {
        i := i - 1;
        if rows[i].status == status {
          return Ok(rows[i]);
        }
      }
      return Err(ArtifactNotFound);
    }

    method LatestPromotedTxID() returns (tx: string)
      ensures tx == LatestPromotedTx(rows)
    {
      var r := LatestArtifactByStatus(Promoted);
      tx := match r case Ok(row) => row.txId case Err(_) => "";
    }

    // ---------------------------------------------------------- statements

    /** UPDATE artifacts SET ... WHERE tx_id = ? AND status = ?, as a scan of the table. */
    method Update(tx: string, from: Status, w: Write, now: int) returns (affected: nat)
      modifies this`rows
      ensures rows == UpdateWhere(old(rows), tx, from, w, now)
      ensures affected > 0 <==> Matches(old(rows), tx, from)
    {
      affected := 0;
      var i := 0;
      while i < |rows|
        invariant 0 <= i <= |rows| == |old(rows)|
        invariant forall j :: 0 <= j < i ==> rows[j] == UpdateWhere(old(rows), tx, from, w, now)[j]
        invariant forall j :: i <= j < |rows| ==> rows[j] == old(rows)[j]
        invariant affected > 0 <==> exists j :: 0 <= j < i && Hit(old(rows)[j], tx, from)
      {
        if Hit(rows[i], tx, from) {
          assert Hit(old(rows)[i], tx, from);
          rows := rows[i := Written(rows[i], w, now)];
          affected := affected + 1;
        }
        i := i + 1;
      }
    }

    method LogEvent(kind: Kind, tx: string)
      modifies this`log
      ensures Contents() == Logged(old(Contents()), kind, tx)
    {
      log := log + [Event(kind, tx)];
    }

    method InsertArtifactWithEvent(tx: string, base: string, bin: string, status: Status, event: Option<Kind>, now: int)
      returns (r: Result<(), DbError>)
      modifies this
      ensures match Insert(old(Contents()), tx, base, bin, status, event, now)
              case Ok(db) => r.Ok? && Contents() == db
              case Err(e) => r == Err(e) && Contents() == old(Contents())
      ensures r == Err(EmptyField) <==> Text.IsBlank(tx) || Text.IsBlank(bin)
      ensures r == Err(UniqueViolation)
              <==> r != Err(EmptyField) && exists j :: 0 <= j < |old(rows)| && old(rows)[j].txId == Text.TrimSpace(tx)
      ensures r.Ok? ==>
                && rows == old(rows) + [Row(Text.TrimSpace(tx), TextOrNull(base), Text.TrimSpace(bin), None, None,
                                            None, None, status, None, now, now)]
                && log == old(log) + if event.Some? then [Event(event.value, Text.TrimSpace(tx))] else []
    {
      Text.BlankIffNothing(tx);
      Text.BlankIffNothing(bin);
      BlankIsNull(base);
      var txId, binPath := Text.TrimSpace(tx), Text.TrimSpace(bin);
      if txId == "" || binPath == "" {
        return Err(EmptyField);
      }
      var present := GetArtifactByTxID(txId);
      if present.Ok? {
        return Err(UniqueViolation);
      }
      rows := rows + [NewRow(txId, NullIfEmpty(base), binPath, status, now)];
      if event.Some? {
        LogEvent(event.value, txId);
      }
      return Ok(());
    }

    method EnsureBootstrapPromotedArtifact(tx: string, bin: string, now: int) returns (r: Result<(), DbError>)
      modifies this
      ensures match EnsureBootstrap(old(Contents()), tx, bin, now)
              case Ok(db) => r.Ok? && Contents() == db
              case Err(e) => r == Err(e) && Contents() == old(Contents())
      ensures r == (if Text.IsBlank(tx) || Text.IsBlank(bin) then Err(EmptyField) else Ok(()))
      ensures r.Ok? ==>
                if exists j :: 0 <= j < |old(rows)| && old(rows)[j].txId == Text.TrimSpace(tx) then rows == old(rows)
                else rows == old(rows) + [Row(Text.TrimSpace(tx), None, Text.TrimSpace(bin), None, None,
                                              None, None, Promoted, None, now, now)]
    {
      Text.BlankIffNothing(tx);
      Text.BlankIffNothing(bin);
      var txId, binPath := Text.TrimSpace(tx), Text.TrimSpace(bin);
      if txId == "" || binPath == "" {
        return Err(EmptyField);
      }
      var present := GetArtifactByTxID(txId);
      if present.Err? {
        rows := rows + [NewRow(txId, None, binPath, Promoted, now)];
      }
      return Ok(());
    }

    method TransitionArtifactStatus(tx: string, from: Status, to: Status, lastError: string, now: int)
      returns (r: Result<bool, DbError>)
      modifies this`rows
      ensures !IsValidTransition(from, to) ==> r == Err(InvalidStatusTransition) && Contents() == old(Contents())
      ensures IsValidTransition(from, to) ==>
                && r == Ok(Matches(old(rows), tx, from))
                && Contents() == Cas(old(Contents()), tx, from, TransitionWrite(to, lastError), None, now)
                && Rewritten(old(rows), rows, tx, from,
                             (row: Row) => row.(status := to, lastError := TextOrNull(lastError), updatedAt := now))
    {
      BlankIsNull(lastError);
      if !IsValidTransition(from, to) {
        return Err(InvalidStatusTransition);
      }
      var affected := Update(tx, from, TransitionWrite(to, lastError), now);
      UpdateMissesNothing(old(rows), tx, from, TransitionWrite(to, lastError), now);
      return Ok(affected > 0);
    }

    method TransitionArtifactStatusWithEvent(
      tx: string, from: Status, to: Status, lastError: string, event: Option<Kind>, now: int)
      returns (r: Result<bool, DbError>)
      modifies this
      ensures !IsValidTransition(from, to) ==> r == Err(InvalidStatusTransition) && Contents() == old(Contents())
      ensures IsValidTransition(from, to) ==>
                && r == Ok(Matches(old(rows), tx, from))
                && Contents() == Cas(old(Contents()), tx, from, TransitionWrite(to, lastError), event, now)
                && Rewritten(old(rows), rows, tx, from,
                             (row: Row) => row.(status := to, lastError := TextOrNull(lastError), updatedAt := now))
    {
      BlankIsNull(lastError);
      if !IsValidTransition(from, to) {
        return Err(InvalidStatusTransition);
      }
      var affected := Update(tx, from, TransitionWrite(to, lastError), now);
      UpdateMissesNothing(old(rows), tx, from, TransitionWrite(to, lastError), now);
      if affected == 0 {
        return Ok(false);
      }
      if event.Some? {
        LogEvent(event.value, tx);
      }
      return Ok(true);
    }

    method CleanupInProgressArtifacts(now: int) returns (affected: nat)
      modifies this`rows
      ensures Contents() == Db(Cleaned(old(rows), now), old(log))
      ensures forall j :: 0 <= j < |rows| ==> Swept(old(rows)[j], rows[j], now) && !InProgress(rows[j])
      ensures affected == |InProgressBelow(old(rows), |old(rows)|)|
    {
      affected := 0;
      var i := 0;
      while i < |rows|
        invariant 0 <= i <= |rows| == |old(rows)|
        invariant forall j :: 0 <= j < i ==> rows[j] == CleanedRow(old(rows)[j], now)
        invariant forall j :: i <= j < |rows| ==> rows[j] == old(rows)[j]
        invariant affected == |InProgressBelow(old(rows), i)|
      {
        CleanupSweeps(old(rows), now, i);
        hide InProgressBelow, InProgress, Swept;
        InProgressNext(old(rows), i);
        var cleaned := CleanedRow(rows[i], now);
        if cleaned.status != rows[i].status {
          affected := affected + 1;
        }
        rows := rows[i := cleaned];
        i := i + 1;
      }
      hide Swept, InProgress, CleanedRow, InProgressBelow;
      forall j | 0 <= j < |rows|
        ensures Swept(old(rows)[j], rows[j], now) && !InProgress(rows[j])
      {
        CleanupSweeps(old(rows), now, j);
      }
    }

    /** Picks the oldest approved row by (created_at, id) and takes it for deployment in one transaction. */
    method ClaimApprovedArtifactForDeploy(now: int) returns (r: Option<Row>)
      modifies this`rows
      ensures match FirstApproved(old(rows))
              case None => r.None? && Contents() == old(Contents())
              case Some(i) =>
                && r == Some(old(rows)[i].(status := Deploying))
                && Contents() == Cas(old(Contents()), old(rows)[i].txId, Approved,
                                     Write(Deploying, deployStarted := true), None, now)
                && Rewritten(old(rows), rows, old(rows)[i].txId, Approved,
                             (row: Row) => row.(status := Deploying, deployStartedAt := Some(now), updatedAt := now))
      ensures r.Some? ==> exists i :: 0 <= i < |old(rows)| && Oldest(old(rows), i) && r.value.txId == old(rows)[i].txId
      ensures r.None? ==> forall i :: 0 <= i < |rows| ==> rows[i].status != Approved
    {
      var best: Option<nat> := None;
      var i := 0;
      while i < |rows|
        invariant 0 <= i <= |rows|
        invariant best == FirstApproved(rows[..i])
      {
        assert rows[..i + 1][..i] == rows[..i];
        if rows[i].status == Approved && (best.None? || rows[i].createdAt < rows[best.value].createdAt) {
          best := Some(i);
        }
        i := i + 1;
      }
      assert rows[..i] == rows;
      if best.None? {
        return None;
      }
      var a := rows[best.value];
      assert Hit(a, a.txId, Approved);
      var affected := Update(a.txId, Approved, Write(Deploying, deployStarted := true), now);
      return Some(a.(status := Deploying));
    }

    method MarkArtifactDeployCompleted(tx: string, now: int) returns (ok: bool)
      modifies this`rows
      ensures ok == Matches(old(rows), tx, Deploying)
      ensures Contents()
              == Cas(old(Contents()), tx, Deploying, Write(DeployedUnstable, deployFinished := true), None, now)
      ensures Rewritten(old(rows), rows, tx, Deploying,
                        (row: Row) => row.(status := DeployedUnstable, deployFinishedAt := Some(now), updatedAt := now))
    {
      var affected := Update(tx, Deploying, Write(DeployedUnstable, deployFinished := true), now);
      UpdateMissesNothing(old(rows), tx, Deploying, Write(DeployedUnstable, deployFinished := true), now);
      return affected > 0;
    }

    method MarkArtifactDeployFailed(tx: string, lastError: string, now: int) returns (ok: bool)
      modifies this`rows
      ensures ok == Matches(old(rows), tx, Deploying)
      ensures Contents() == Cas(old(Contents()), tx, Deploying, DeployFailedWrite(lastError), None, now)
      ensures Rewritten(old(rows), rows, tx, Deploying,
                        (row: Row) => row.(status := DeployFailed, deployFinishedAt := Some(now), updatedAt := now,
                                    lastError := Some(if |lastError| <= 2000 then lastError else lastError[..2000])))
    {
      var affected := Update(tx, Deploying, DeployFailedWrite(lastError), now);
      UpdateMissesNothing(old(rows), tx, Deploying, DeployFailedWrite(lastError), now);
      return affected > 0;
    }

    method ApproveArtifactWithEvent(tx: string, chat: int, now: int) returns (ok: bool)
      modifies this
      ensures ok == Matches(old(rows), tx, Staged)
      ensures Contents()
              == Cas(old(Contents()), tx, Staged, Write(Approved, chat := Some(chat)), Some(ApprovedEvent), now)
      ensures Rewritten(old(rows), rows, tx, Staged,
                        (row: Row) => row.(status := Approved, approvalChat := Some(chat), updatedAt := now))
    {
      var affected := Update(tx, Staged, Write(Approved, chat := Some(chat)), now);
      UpdateMissesNothing(old(rows), tx, Staged, Write(Approved, chat := Some(chat)), now);
      if affected == 0 {
        return false;
      }
      LogEvent(ApprovedEvent, tx);
      return true;
    }

    method SetArtifactBuildMetadata(tx: string, sha: string, now: int)
      modifies this`rows
      ensures Contents() == Db(WithMetadata(old(rows), tx, sha, now), old(log))
      ensures |rows| == |old(rows)|
      ensures forall j :: 0 <= j < |rows| ==>
                rows[j] == if old(rows)[j].txId == tx
                           then old(rows)[j].(sha256 := TextOrNull(sha), updatedAt := now) else old(rows)[j]
    {
      BlankIsNull(sha);
      var i := 0;
      while i < |rows|
        invariant 0 <= i <= |rows| == |old(rows)|
        invariant forall j :: 0 <= j < i ==> rows[j] == WithMetadata(old(rows), tx, sha, now)[j]
        invariant forall j :: i <= j < |rows| ==> rows[j] == old(rows)[j]
      {
        if rows[i].txId == tx {
          rows := rows[i := rows[i].(sha256 := NullIfEmpty(sha), updatedAt := now)];
        }
        i := i + 1;
      }
    }

    method MarkArtifactPromoted(tx: string, now: int) returns (r: Result<bool, DbError>)
      modifies this`rows
      ensures r == Ok(Matches(old(rows), tx, DeployedUnstable))
      ensures Contents() == Cas(old(Contents()), tx, DeployedUnstable, TransitionWrite(Promoted, ""), None, now)
      ensures Rewritten(old(rows), rows, tx, DeployedUnstable,
                        (row: Row) => row.(status := Promoted, lastError := None, updatedAt := now))
    {
      r := TransitionArtifactStatus(tx, DeployedUnstable, Promoted, "", now);
    }

    method MarkArtifactRollbackPending(tx: string, now: int) returns (r: Result<bool, DbError>)
      modifies this`rows
      ensures r == Ok(Matches(old(rows), tx, DeployedUnstable))
      ensures Contents() == Cas(old(Contents()), tx, DeployedUnstable, TransitionWrite(RollbackPending, ""), None, now)
      ensures Rewritten(old(rows), rows, tx, DeployedUnstable,
                        (row: Row) => row.(status := RollbackPending, lastError := None, updatedAt := now))
    {
      r := TransitionArtifactStatus(tx, DeployedUnstable, RollbackPending, "", now);
    }

    method MarkArtifactRolledBack(tx: string, now: int) returns (r: Result<bool, DbError>)
      modifies this`rows
      ensures r == Ok(Matches(old(rows), tx, RollbackPending))
      ensures Contents() == Cas(old(Contents()), tx, RollbackPending, TransitionWrite(RolledBack, ""), None, now)
      ensures Rewritten(old(rows), rows, tx, RollbackPending,
                        (row: Row) => row.(status := RolledBack, lastError := None, updatedAt := now))
    {
      r := TransitionArtifactStatus(tx, RollbackPending, RolledBack, "", now);
    }

    /** Reads the row, then tries the transition from the status it read. */
    method RequestArtifactRollbackWithEvent(tx: string, now: int) returns (r: Result<(bool, Status), DbError>)
      modifies this
      ensures !Has(old(rows), tx) ==> r == Err(ArtifactNotFound) && Contents() == old(Contents())
      ensures Has(old(rows), tx) ==>
                var a := old(rows)[IndexOf(old(rows), tx)];
                var may := (a.status.DeployedUnstable? || a.status.Promoted?) && TextOrNull(BaseString(a)).Some?;
                && r == Ok((may, a.status))
                && Contents() == if may
                                 then Cas(old(Contents()), tx, a.status, TransitionWrite(RollbackPending, ""),
                                          Some(RollbackRequestedEvent), now)
                                 else old(Contents())
    {
      var found := GetArtifactByTxID(tx);
      match found
      case Err(e) =>
        r := Err(e);
      case Ok(a) =>
        BaseIffNotBlank(a);
        match a.status
        case RollbackPending =>
          r := Ok((false, RollbackPending));
        case DeployedUnstable | Promoted =>
          if !HasBase(a) {
            return Ok((false, a.status));
          }
          assert Hit(a, tx, a.status);
          var done := TransitionArtifactStatusWithEvent(
            tx, a.status, RollbackPending, "", Some(RollbackRequestedEvent), now);
          r := Ok((done == Ok(true), a.status));
        case _ =>
          r := Ok((false, a.status));
    }
  }

  function DeployFailedWrite(lastError: string): Write {
    Write(DeployFailed, lastError := Some(Some(TruncateForDB(lastError))), deployFinished := true)
  }

  /** An update whose WHERE clause selects nothing leaves the table as it was. */
  lemma UpdateMissesNothing(rows: seq<Row>, tx: string, from: Status, w: Write, now: int)
    ensures !Matches(rows, tx, from) ==> UpdateWhere(rows, tx, from, w, now) == rows
  {
  }
}

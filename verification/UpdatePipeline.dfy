/**
 The worker's update commands, undisturbed: what `update stage`, `approve`, `cancel` and `rollback` do to
 the store from the message to the reply.
 */
module UpdatePipeline {
  import opened Options
  import opened ArtifactStatus
  import opened ArtifactTable
  import opened ArtifactStore
  import opened UpdateProtocol
  import opened UpdateInvariant
  import Text

  /**
   What the pipeline meets outside: whether the artifact's directory can be made, the outcomes of the three
   commands, the digest of the built file (None when it cannot be read), and the failing command's message.
   */
  datatype Tools = Tools(
    prepared: bool, built: bool, digest: Option<Digest>, tested: bool, checked: bool, message: string)

  datatype StageResult = StagedNow | AlreadyThere(status: Status) | MustUseNewTx | StageFailed

  // ------------------------------------------------------- what one run leaves

  function FinalStatus(t: Tools): Status {
    if !t.built || t.digest.None? then BuildFailed
    else if !t.tested then TestFailed
    else if !t.checked then SelfCheckFailed
    else Staged
  }

  /** The events of one run, in order. */
  function Trace(t: Tools): seq<Kind> {
    [TxnCreatedEvent, BuildStartedEvent] +
    if !t.built then [BuildFailedEvent]
    else if t.digest.None? then []
    else if !t.tested then [BuildCompletedEvent, TestStartedEvent, TestFailedEvent]
    else if !t.checked then
      [BuildCompletedEvent, TestStartedEvent, TestCompletedEvent, SelfCheckStartedEvent, SelfCheckFailedEvent]
    else
      [BuildCompletedEvent, TestStartedEvent, TestCompletedEvent, SelfCheckStartedEvent, SelfCheckCompletedEvent,
       StagedEvent]
  }

  function EventsOf(kinds: seq<Kind>, tx: string): (r: seq<Event>)
    ensures |r| == |kinds|
  {
    seq(|kinds|, i requires 0 <= i < |kinds| => Event(kinds[i], tx))
  }

  /** The number of statements on the row before the last one; each reads the clock anew. */
  function LastStatement(t: Tools): nat {
    if !t.built || t.digest.None? then 2 else if !t.tested then 4 else 5
  }

  /** The row that one run leaves at the end of the table. */
  function FinalRow(tx: string, base: string, bin: string, t: Tools, clock: nat -> int): Row {
    NewRow(tx, NullIfEmpty(base), bin, FinalStatus(t), clock(0))
      .(sha256 := if t.built && t.digest.Some? then Some(t.digest.value) else None,
        lastError := if FinalStatus(t) != Staged then NullIfEmpty(t.message) else None,
        updatedAt := clock(LastStatement(t)))
  }

  /** The table and the log after one run for a new transaction. */
  function RunStaged(db: Db, tx: string, bin: string, t: Tools, clock: nat -> int): Db {
    Db(db.rows + [FinalRow(tx, LatestPromotedTx(db.rows), bin, t, clock)], db.log + EventsOf(Trace(t), tx))
  }

  /** Statuses after which the tx_id is spent. */
  predicate Dead(s: Status) {
    s.BuildFailed? || s.TestFailed? || s.SelfCheckFailed? || s.DeployFailed? || s.Cancelled? || s.RolledBack?
  }

  // -------------------------------------------------- statements on the new row

  /** The table is the old one and one new row for tx. */
  predicate Tip(db: Db, rows: seq<Row>, row: Row, log: seq<Event>) {
    db == Db(rows + [row], log) && !Has(rows, row.txId)
  }

  lemma TipCas(db: Db, rows: seq<Row>, row: Row, log: seq<Event>, w: Write, event: Option<Kind>, now: int)
    requires Tip(db, rows, row, log)
    ensures Matches(db.rows, row.txId, row.status)
    ensures Tip(Cas(db, row.txId, row.status, w, event, now), rows, Written(row, w, now),
                if event.Some? then log + [Event(event.value, row.txId)] else log)
  {
    assert Hit(db.rows[|rows|], row.txId, row.status);
    assert UpdateWhere(db.rows, row.txId, row.status, w, now) == rows + [Written(row, w, now)];
  }

  lemma TipMetadata(db: Db, rows: seq<Row>, row: Row, log: seq<Event>, sha: Digest, now: int)
    requires Tip(db, rows, row, log)
    ensures Tip(Db(WithMetadata(db.rows, row.txId, sha, now), log), rows,
                row.(sha256 := Some(sha), updatedAt := now), log)
  {
    DigestUntrimmed(sha);
    assert WithMetadata(db.rows, row.txId, sha, now) == rows + [row.(sha256 := Some(sha), updatedAt := now)];
  }

  lemma TipInsert(db: Db, tx: string, base: string, bin: string, now: int)
    requires IsTxId(tx) && !Has(db.rows, tx) && bin != "" && Text.TrimSpace(bin) == bin
    ensures var r := Insert(db, tx, base, bin, Created, Some(TxnCreatedEvent), now);
            && r.Ok?
            && Tip(r.value, db.rows, NewRow(tx, NullIfEmpty(base), bin, Created, now),
                   db.log + [Event(TxnCreatedEvent, tx)])
  {
    TxIdUntrimmed(tx);
  }

  // --------------------------------------------------------------- the commands

  class UpdateWorker {
    const store: Store

    constructor (store: Store)
      ensures this.store == store
    {
      this.store := store;
    }

    method RunUpdateStagePipeline(root: string, tx: string, t: Tools, clock: nat -> int) returns (r: StageResult)
      requires IsAbsolute(root) && IsTxId(tx)
      modifies store
      ensures Has(old(store.rows), tx) ==>
                var a := old(store.rows)[IndexOf(old(store.rows), tx)];
                && store.Contents() == old(store.Contents())
                && (r == MustUseNewTx
                    <==> a.status in {BuildFailed, TestFailed, SelfCheckFailed, DeployFailed, Cancelled, RolledBack})
                && (r != MustUseNewTx ==> r == AlreadyThere(a.status))
      ensures !Has(old(store.rows), tx) && !t.prepared ==> store.Contents() == old(store.Contents()) && r == StageFailed
      ensures !Has(old(store.rows), tx) && t.prepared ==>
                && store.Contents() == RunStaged(old(store.Contents()), tx, BinPath(root, tx), t, clock)
                && r == if FinalStatus(t) == Staged then StagedNow else StageFailed
    {
      var existing := store.GetArtifactByTxID(tx);
      if existing.Ok? {
        return if Dead(existing.value.status) then MustUseNewTx else AlreadyThere(existing.value.status);
      }
      var baseTxId := store.LatestPromotedTxID();
      if !t.prepared {
        return StageFailed;
      }
      r := Pipeline(root, tx, baseTxId, t, clock);
    }

    /** The worker exits, so that the supervisor deploys, iff the artifact was staged and is now approved. */
    method Approve(tx: string, chat: int, now: int) returns (exit: bool)
      requires Unique(store.rows)
      modifies store
      ensures store.Contents()
              == Cas(old(store.Contents()), tx, Staged, Write(Approved, chat := Some(chat)), Some(ApprovedEvent), now)
      ensures exit <==> Matches(old(store.rows), tx, Staged)
      ensures Rewritten(old(store.rows), store.rows, tx, Staged,
                        (row: Row) => row.(status := Approved, approvalChat := Some(chat), updatedAt := now))
      ensures store.log == old(store.log) + if exit then [Event(ApprovedEvent, tx)] else []
    {
      OnlyRow(store.rows, tx, Staged);
      var artifact := store.GetArtifactByTxID(tx);
      if artifact.Err? {
        return false;
      }
      if artifact.value.status != Staged {
        return false;
      }
      exit := store.ApproveArtifactWithEvent(tx, chat, now);
    }

    method Cancel(tx: string, now: int) returns (cancelled: bool)
      requires Unique(store.rows)
      modifies store
      ensures store.Contents()
              == Cas(old(store.Contents()), tx, Staged, TransitionWrite(Cancelled, ""), Some(CancelledEvent), now)
      ensures cancelled <==> Matches(old(store.rows), tx, Staged)
      ensures Rewritten(old(store.rows), store.rows, tx, Staged,
                        (row: Row) => row.(status := Cancelled, lastError := None, updatedAt := now))
      ensures store.log == old(store.log) + if cancelled then [Event(CancelledEvent, tx)] else []
    {
      OnlyRow(store.rows, tx, Staged);
      var artifact := store.GetArtifactByTxID(tx);
      if artifact.Err? {
        return false;
      }
      if artifact.value.status != Staged {
        return false;
      }
      var r := store.TransitionArtifactStatusWithEvent(tx, Staged, Cancelled, "", Some(CancelledEvent), now);
      cancelled := r == Ok(true);
    }

    /** The worker exits iff a rollback of the artifact is now pending. */
    method RequestRollback(tx: string, now: int) returns (exit: bool)
      requires Unique(store.rows)
      modifies store
      ensures exit <==> Has(store.rows, tx) && store.rows[IndexOf(store.rows, tx)].status.RollbackPending?
      ensures store.Contents()
              == if CanRollBack(old(store.rows), tx)
                 then Cas(old(store.Contents()), tx, old(store.rows)[IndexOf(old(store.rows), tx)].status,
                          TransitionWrite(RollbackPending, ""), Some(RollbackRequestedEvent), now)
                 else old(store.Contents())
    {
      ghost var before := store.Contents();
      if Has(store.rows, tx) {
        BaseIffNotBlank(store.rows[IndexOf(store.rows, tx)]);
      }
      var r := store.RequestArtifactRollbackWithEvent(tx, now);
      match r
      case Err(_) =>
        exit := false;
      case Ok((requested, current)) =>
        exit := requested || current.RollbackPending?;
        if requested {
          NowPending(before, tx, current, now);
        }
    }

    /** A transition of the new row; it cannot miss. */
    method Advance(tx: string, from: Status, to: Status, lastError: string, event: Option<Kind>, now: int,
                   ghost rows: seq<Row>, ghost row: Row, ghost log: seq<Event>)
        returns (ok: bool)
      requires IsValidTransition(from, to) && row.txId == tx && row.status == from
      requires Tip(store.Contents(), rows, row, log)
      modifies store
      ensures ok && Tip(store.Contents(), rows, Moved(row, to, NullIfEmpty(lastError), now), Noted(log, event, tx))
    {
      TipCas(store.Contents(), rows, row, log, TransitionWrite(to, lastError), event, now);
      hide Cas, Matches, Tip, NullIfEmpty;
      var r := store.TransitionArtifactStatusWithEvent(tx, from, to, lastError, event, now);
      ok := r == Ok(true);
    }

    /** Insert, and enter building. */
    method Begin(root: string, tx: string, base: string, clock: nat -> int) returns (ok: bool)
      requires IsAbsolute(root) && IsTxId(tx) && !Has(store.rows, tx)
      modifies store
      ensures ok && Tip(store.Contents(), old(store.rows), BuildingRow(tx, base, BinPath(root, tx), clock),
                        old(store.log) + [Event(TxnCreatedEvent, tx)] + [Event(BuildStartedEvent, tx)])
    {
      var binPath := BinPath(root, tx);
      BinPathUntrimmed(root, tx);
      TipInsert(store.Contents(), tx, base, binPath, clock(0));
      hide Insert, BinPath, NullIfEmpty, Tip, IsTxId, Has;
      ghost var rows, log := store.rows, store.log;
      var inserted := store.InsertArtifactWithEvent(tx, base, binPath, Created, Some(TxnCreatedEvent), clock(0));
      if inserted.Err? {
        return false;
      }
      EmptyIsNull();
      ok := Advance(tx, Created, Building, "", Some(BuildStartedEvent), clock(1),
                    rows, NewRow(tx, NullIfEmpty(base), binPath, Created, clock(0)),
                    log + [Event(TxnCreatedEvent, tx)]);
    }

    /** Build, hash, record, and enter testing. */
    method BuildAndHash(tx: string, t: Tools, clock: nat -> int,
                        ghost rows: seq<Row>, ghost row: Row, ghost log: seq<Event>)
        returns (ok: bool)
      requires row.txId == tx && row.status == Building && row.lastError.None? && Tip(store.Contents(), rows, row, log)
      modifies store
      ensures ok == (t.built && t.digest.Some?)
      ensures Tip(store.Contents(), rows,
                  if ok then row.(status := Testing, sha256 := Some(t.digest.value), updatedAt := clock(3))
                  else Moved(row, BuildFailed, NullIfEmpty(t.message), clock(2)),
                  if ok then log + [Event(BuildCompletedEvent, tx)] + [Event(TestStartedEvent, tx)]
                  else if t.built then log else log + [Event(BuildFailedEvent, tx)])
    {
      hide NullIfEmpty, WithMetadata, Has;
      EmptyIsNull();
      if !t.built {
        ok := Advance(tx, Building, BuildFailed, t.message, Some(BuildFailedEvent), clock(2), rows, row, log);
        return false;
      }
      if t.digest.None? {
        ok := Advance(tx, Building, BuildFailed, t.message, None, clock(2), rows, row, log);
        return false;
      }
      TipMetadata(store.Contents(), rows, row, log, t.digest.value, clock(2));
      store.SetArtifactBuildMetadata(tx, t.digest.value, clock(2));
      store.LogEvent(BuildCompletedEvent, tx);
      ok := Advance(tx, Building, Testing, "", Some(TestStartedEvent), clock(3), rows,
                    row.(sha256 := Some(t.digest.value), updatedAt := clock(2)),
                    log + [Event(BuildCompletedEvent, tx)]);
    }

    /** Test, self-check, and stage. */
    method TestAndCheck(tx: string, t: Tools, clock: nat -> int,
                        ghost rows: seq<Row>, ghost row: Row, ghost log: seq<Event>)
        returns (ok: bool)
      requires row.txId == tx && row.status == Testing && row.lastError.None? && Tip(store.Contents(), rows, row, log)
      modifies store
      ensures ok == (t.tested && t.checked)
      ensures Tip(store.Contents(), rows,
                  if !t.tested then Moved(row, TestFailed, NullIfEmpty(t.message), clock(4))
                  else if !t.checked then Moved(row, SelfCheckFailed, NullIfEmpty(t.message), clock(5))
                  else Moved(row, Staged, None, clock(5)),
                  if !t.tested then log + [Event(TestFailedEvent, tx)]
                  else log + [Event(TestCompletedEvent, tx)] + [Event(SelfCheckStartedEvent, tx)]
                       + if !t.checked then [Event(SelfCheckFailedEvent, tx)]
                         else [Event(SelfCheckCompletedEvent, tx)] + [Event(StagedEvent, tx)])
    {
      hide NullIfEmpty, Has;
      EmptyIsNull();
      if !t.tested {
        ok := Advance(tx, Testing, TestFailed, t.message, Some(TestFailedEvent), clock(4), rows, row, log);
        return false;
      }
      store.LogEvent(TestCompletedEvent, tx);
      ghost var checking := Moved(row, SelfChecking, None, clock(4));
      ok := Advance(tx, Testing, SelfChecking, "", Some(SelfCheckStartedEvent), clock(4), rows, row,
                    log + [Event(TestCompletedEvent, tx)]);
      ghost var sofar := log + [Event(TestCompletedEvent, tx)] + [Event(SelfCheckStartedEvent, tx)];
      if !t.checked {
        ok := Advance(tx, SelfChecking, SelfCheckFailed, t.message, Some(SelfCheckFailedEvent), clock(5),
                      rows, checking, sofar);
        return false;
      }
      store.LogEvent(SelfCheckCompletedEvent, tx);
      ok := Advance(tx, SelfChecking, Staged, "", Some(StagedEvent), clock(5), rows, checking,
                    sofar + [Event(SelfCheckCompletedEvent, tx)]);
      assert sofar + [Event(SelfCheckCompletedEvent, tx)] + [Event(StagedEvent, tx)]
             == sofar + ([Event(SelfCheckCompletedEvent, tx)] + [Event(StagedEvent, tx)]);
    }

    /** From the insert on. */
    method Pipeline(root: string, tx: string, base: string, t: Tools, clock: nat -> int) returns (r: StageResult)
      requires IsAbsolute(root) && IsTxId(tx) && !Has(store.rows, tx)
      modifies store
      ensures store.rows == old(store.rows) + [FinalRow(tx, base, BinPath(root, tx), t, clock)]
      ensures store.log == old(store.log) + EventsOf(Trace(t), tx)
      ensures r == if FinalStatus(t) == Staged then StagedNow else StageFailed
    {
      ghost var rows, log := store.rows, store.log;
      TraceEvents(t, tx, log);
      hide BinPath, NullIfEmpty, Has, IsTxId;
      var ok := Begin(root, tx, base, clock);
      ghost var row := BuildingRow(tx, base, BinPath(root, tx), clock);
      log := log + [Event(TxnCreatedEvent, tx)] + [Event(BuildStartedEvent, tx)];
      ok := BuildAndHash(tx, t, clock, rows, row, log);
      if !ok {
        return StageFailed;
      }
      row := row.(status := Testing, sha256 := Some(t.digest.value), updatedAt := clock(3));
      log := log + [Event(BuildCompletedEvent, tx)] + [Event(TestStartedEvent, tx)];
      ok := TestAndCheck(tx, t, clock, rows, row, log);
      r := if ok then StagedNow else StageFailed;
    }
  }

  /** The artifact is deployed or promoted and has a base to go back to. */
  predicate CanRollBack(rows: seq<Row>, tx: string) {
    && Has(rows, tx)
    && var a := rows[IndexOf(rows, tx)]; (a.status.DeployedUnstable? || a.status.Promoted?) && HasBase(a)
  }

  lemma OnlyRow(rows: seq<Row>, tx: string, status: Status)
    requires Unique(rows)
    ensures Matches(rows, tx, status) <==> Has(rows, tx) && rows[IndexOf(rows, tx)].status == status
  {
    if Has(rows, tx) && rows[IndexOf(rows, tx)].status == status {
      assert Hit(rows[IndexOf(rows, tx)], tx, status);
    }
    if i :| 0 <= i < |rows| && Hit(rows[i], tx, status) {
      IndexUnique(rows, i);
    }
  }

  lemma NowPending(db: Db, tx: string, from: Status, now: int)
    requires Unique(db.rows) && Has(db.rows, tx) && db.rows[IndexOf(db.rows, tx)].status == from
    ensures var rows := Cas(db, tx, from, TransitionWrite(RollbackPending, ""), Some(RollbackRequestedEvent), now).rows;
            Has(rows, tx) && rows[IndexOf(rows, tx)].status.RollbackPending?
  {
    var w := TransitionWrite(RollbackPending, "");
    CasTouchesOneRow(db, tx, from, w, Some(RollbackRequestedEvent), now);
    hide Cas, UpdateWhere;
    var i := IndexOf(db.rows, tx);
    var rows := db.rows[i := Written(db.rows[i], w, now)];
    forall j, k | 0 <= j < k < |rows|
      ensures rows[j].txId != rows[k].txId
    {
      assert db.rows[j].txId != db.rows[k].txId;
    }
    IndexUnique(rows, i);
  }

  /** The row after a transition. */
  function Moved(row: Row, to: Status, lastError: Option<string>, now: int): Row {
    row.(status := to, lastError := lastError, updatedAt := now)
  }

  function Noted(log: seq<Event>, event: Option<Kind>, tx: string): seq<Event> {
    if event.Some? then log + [Event(event.value, tx)] else log
  }

  function BuildingRow(tx: string, base: string, bin: string, clock: nat -> int): Row {
    NewRow(tx, NullIfEmpty(base), bin, Building, clock(0)).(updatedAt := clock(1))
  }

  lemma EmptyIsNull()
    ensures NullIfEmpty("") == None
  {
  }

  /** The trace of a run, event by event. */
  lemma TraceEvents(t: Tools, tx: string, log: seq<Event>)
    ensures var begun := log + [Event(TxnCreatedEvent, tx)] + [Event(BuildStartedEvent, tx)];
            var built := begun + [Event(BuildCompletedEvent, tx)] + [Event(TestStartedEvent, tx)];
            var tested := built + [Event(TestCompletedEvent, tx)] + [Event(SelfCheckStartedEvent, tx)];
            log + EventsOf(Trace(t), tx)
            == if !t.built then begun + [Event(BuildFailedEvent, tx)]
               else if t.digest.None? then begun
               else if !t.tested then built + [Event(TestFailedEvent, tx)]
               else if !t.checked then tested + [Event(SelfCheckFailedEvent, tx)]
               else tested + ([Event(SelfCheckCompletedEvent, tx)] + [Event(StagedEvent, tx)])
  {
  }
}

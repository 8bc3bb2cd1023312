/**
 The invariant of the self-update protocol and the proof that every action keeps it.

 The proof is by rely and guarantee: `Allowed` is what a process owes before it issues a statement,
 `Grows` and `Spares` are what any allowed statement leaves true for everyone else, and `ProcOk` is what
 a process knows at each of its places and keeps knowing while the others run.
 */
module UpdateInvariant {
  import opened Options
  import opened ArtifactStatus
  import opened ArtifactTable
  import opened UpdateProtocol
  import ArtifactStore
  import Text

  // ----------------------------------------------------------------- the log

  /** The event types that are written in the same transaction as a row change. */
  predicate Tracked(kind: Kind) {
    || kind.TxnCreatedEvent? || kind.BuildStartedEvent? || kind.BuildFailedEvent?
    || kind.TestStartedEvent? || kind.TestFailedEvent? || kind.SelfCheckStartedEvent?
    || kind.SelfCheckFailedEvent? || kind.StagedEvent? || kind.ApprovedEvent?
    || kind.CancelledEvent? || kind.RollbackRequestedEvent?
  }

  /** The tracked events of one transaction, in log order. */
  function Trail(log: seq<Event>, tx: string): seq<Kind> {
    if |log| == 0 then []
    else
      var before := Trail(log[..|log| - 1], tx);
      var e := log[|log| - 1];
      if e.txId == tx && Tracked(e.kind) then before + [e.kind] else before
  }

  /** The success-path events that a row with this status has behind it, in pipeline order. */
  function Spine(s: Status): seq<Kind> {
    match s
    case Created => [TxnCreatedEvent]
    case Building | BuildFailed => [TxnCreatedEvent, BuildStartedEvent]
    case Testing | TestFailed => [TxnCreatedEvent, BuildStartedEvent, TestStartedEvent]
    case SelfChecking | SelfCheckFailed =>
      [TxnCreatedEvent, BuildStartedEvent, TestStartedEvent, SelfCheckStartedEvent]
    case Staged => [TxnCreatedEvent, BuildStartedEvent, TestStartedEvent, SelfCheckStartedEvent, StagedEvent]
    case Cancelled =>
      [TxnCreatedEvent, BuildStartedEvent, TestStartedEvent, SelfCheckStartedEvent, StagedEvent, CancelledEvent]
    case _ =>
      [TxnCreatedEvent, BuildStartedEvent, TestStartedEvent, SelfCheckStartedEvent, StagedEvent, ApprovedEvent]
  }

  /** The one further event that can, but need not, accompany a status. */
  function Ending(s: Status): Option<Kind> {
    match s
    case BuildFailed => Some(BuildFailedEvent)
    case TestFailed => Some(TestFailedEvent)
    case SelfCheckFailed => Some(SelfCheckFailedEvent)
    case RollbackPending | RolledBack => Some(RollbackRequestedEvent)
    case _ => None
  }

  predicate TrailFits(trail: seq<Kind>, s: Status) {
    trail == Spine(s) || (Ending(s).Some? && trail == Spine(s) + [Ending(s).value])
  }

  /** The event a status update may carry: the spine event of its edge, or the ending of its target. */
  predicate EventFits(from: Status, to: Status, event: Option<Kind>) {
    match event
    case None => Spine(to) == Spine(from)
    case Some(k) =>
      && Tracked(k)
      && (Spine(to) == Spine(from) + [k] || (Spine(to) == Spine(from) && Ending(from).None? && Ending(to) == Some(k)))
  }

  lemma TrailAdvances(trail: seq<Kind>, from: Status, to: Status, event: Option<Kind>)
    requires IsValidTransition(from, to) && EventFits(from, to, event) && TrailFits(trail, from)
    ensures TrailFits(if event.Some? then trail + [event.value] else trail, to)
  {
  }

  lemma TrailAppend(log: seq<Event>, e: Event, tx: string)
    ensures Trail(log + [e], tx)
            == if e.txId == tx && Tracked(e.kind) then Trail(log, tx) + [e.kind] else Trail(log, tx)
  {
    assert (log + [e])[..|log|] == log;
  }

  // --------------------------------------------------------- the store and link

  /** The row records a digest, and unless files were tampered with, its binary is on disk and has it. */
  predicate Sealed(w: World, row: Row) {
    && row.sha256.Some? && IsDigest(row.sha256.value)
    && (w.tampered || (row.binPath in w.disk && w.disk[row.binPath] == row.sha256.value))
  }

  /** Row 0 is bootstrap; every other row names an earlier, once promoted base and carries its log trail. */
  predicate RowOk(w: World, i: nat)
    requires i < |w.db.rows|
  {
    var row := w.db.rows[i];
    && IsTxId(row.txId)
    && row.binPath == BinPath(w.root, row.txId)
    && (row.status.Promoted? ==> row.txId in w.promotedEver)
    && (i == 0 ==>
          && row.txId == BOOTSTRAP && row.baseTxId.None? && row.status.Promoted?
          && Trail(w.db.log, row.txId) == [])
    && (i > 0 ==>
          && row.baseTxId.Some?
          && IndexOf(w.db.rows, row.baseTxId.value) < i
          && row.baseTxId.value in w.promotedEver
          && TrailFits(Trail(w.db.log, row.txId), row.status)
          && (!BeforeTests(row.status) ==> Sealed(w, row)))
  }

  /** A row that may be running: bootstrap, or one that was approved and taken for deployment. */
  predicate Vetted(w: World, i: nat)
    requires i < |w.db.rows|
  {
    i == 0 || Released(w.db.rows[i].status)
  }

  ghost predicate LinkOk(w: World) {
    exists i :: 0 <= i < |w.db.rows| && w.link == w.db.rows[i].binPath && Vetted(w, i)
  }

  ghost predicate StoreOk(w: World) {
    && IsAbsolute(w.root)
    && 0 < |w.db.rows|
    && Unique(w.db.rows)
    && (forall i :: 0 <= i < |w.db.rows| ==> RowOk(w, i))
    && (forall tx :: tx in w.promotedEver ==> PromotedRecord(w, tx))
    && (forall tx :: !Has(w.db.rows, tx) ==> Trail(w.db.log, tx) == [])
    && LinkOk(w)
  }

  // ------------------------------------------------------- what processes know

  /** The snapshot a process holds names a row whose identity has not changed. */
  predicate Snap(w: World, a: Row) {
    var i := IndexOf(w.db.rows, a.txId);
    && i < |w.db.rows|
    && w.db.rows[i].baseTxId == a.baseTxId
    && w.db.rows[i].binPath == a.binPath
  }

  /** A snapshot of a row other than bootstrap. */
  predicate SnapUpdate(w: World, a: Row) {
    Snap(w, a) && 0 < IndexOf(w.db.rows, a.txId)
  }

  /** A snapshot of a row that was taken for deployment, with the digest that row still records. */
  predicate SnapReleased(w: World, a: Row) {
    && SnapUpdate(w, a)
    && Released(w.db.rows[IndexOf(w.db.rows, a.txId)].status)
    && a.sha256.Some? && IsDigest(a.sha256.value) && w.db.rows[IndexOf(w.db.rows, a.txId)].sha256 == a.sha256
  }

  /** The row of a build in progress: only the worker that inserted it moves it on to the tests. */
  predicate Owned(w: World, tx: string) {
    var i := IndexOf(w.db.rows, tx);
    0 < i < |w.db.rows| && BeforeTests(w.db.rows[i].status)
  }

  predicate SupervisorOk(w: World, pc: SupervisorPc) {
    match pc
    case Main(EnsureInsert(_)) => false
    case Main(CrashMark(a)) => SnapUpdate(w, a)
    case Rollback(Lookup(a), _) => SnapUpdate(w, a)
    case Rollback(SwitchBack(a, target), _) =>
      SnapUpdate(w, a) && Snap(w, target) && BaseString(a) == target.txId && target.txId in w.promotedEver
    case Deploy(LogStart(a)) => SnapReleased(w, a)
    case Deploy(Verify(a)) => SnapReleased(w, a)
    case Deploy(SwitchTo(a)) => SnapReleased(w, a)
    case _ => true
  }

  /** The pipeline between its insert and the hand-over to the tests. */
  predicate OwningStage(pc: StagePc) {
    || pc.Enter? || pc.Build? || pc.BuildFail? || pc.Hash? || pc.HashFail?
    || pc.StoreMetadata? || pc.LogBuilt? || pc.ToTesting?
  }

  predicate StageOk(w: World, tx: string, pc: StagePc) {
    && IsTxId(tx)
    && (OwningStage(pc) ==> Owned(w, tx))
    && (pc.InsertRow? ==> pc.base in w.promotedEver)
    && (pc.StoreMetadata? ==>
          w.tampered || (BinPath(w.root, tx) in w.disk && w.disk[BinPath(w.root, tx)] == pc.sha))
    && (pc.LogBuilt? || pc.ToTesting? ==> Sealed(w, w.db.rows[IndexOf(w.db.rows, tx)]))
  }

  predicate WorkerOk(w: World, pc: WorkerPc) {
    match pc
    case Commanding(RollbackRequest(tx, from)) => from.DeployedUnstable? || (from.Promoted? && tx != BOOTSTRAP)
    case Staging(tx, stage) => StageOk(w, tx, stage)
    case _ => true
  }

  predicate ProcOk(w: World, p: Proc) {
    match p
    case Supervisor(pc) => SupervisorOk(w, pc)
    case Worker(pc) => WorkerOk(w, pc)
    case Orphan(tx) => Owned(w, tx)
    case _ => true
  }

  /** The transaction whose build a process owns, if any. */
  function Owns(p: Proc): Option<string> {
    match p
    case Orphan(tx) => Some(tx)
    case Worker(Staging(tx, pc)) => if OwningStage(pc) then Some(tx) else None
    case _ => None
  }

  ghost predicate OneOwner(procs: seq<Proc>) {
    forall i, j :: 0 <= i < j < |procs| && Owns(procs[i]).Some? ==> Owns(procs[i]) != Owns(procs[j])
  }

  ghost predicate Inv(w: World) {
    && StoreOk(w)
    && (forall i :: 0 <= i < |w.procs| ==> ProcOk(w, w.procs[i]))
    && OneOwner(w.procs)
  }

  // ------------------------------------------------------------- obligations

  /** The transaction whose ownership a statement needs, if any. */
  function Needs(s: Stmt): Option<string> {
    match s
    case Update(tx, from, _, _) => if from.Created? || from.Building? then Some(tx) else None
    case Metadata(tx, _) => Some(tx)
    case WriteBinary(tx, _) => Some(tx)
    case _ => None
  }

  ghost predicate Allowed(w: World, s: Stmt) {
    match s
    case Skip => true
    case InsertCreated(tx, base) => IsTxId(tx) && base in w.promotedEver
    case InsertBootstrap(_) => false
    case Update(tx, from, write, event) =>
      && IsValidTransition(from, write.to)
      && EventFits(from, write.to, event)
      && (from.Promoted? ==> tx != BOOTSTRAP)
      && (from.Building? && write.to.Testing? && Has(w.db.rows, tx) ==> Sealed(w, w.db.rows[IndexOf(w.db.rows, tx)]))
    case CleanUp => true
    case Metadata(tx, _) => Owned(w, tx)
    case Log(kind, _) => !Tracked(kind)
    case Switch(path) => exists i :: 0 <= i < |w.db.rows| && path == w.db.rows[i].binPath && Vetted(w, i)
    case WriteBinary(tx, _) => Owned(w, tx)
  }

  // --------------------------------------------------------------- guarantees

  /** What every statement does to the table at most. */
  ghost predicate Grows(w: World, w': World) {
    && w'.root == w.root
    && (w.tampered ==> w'.tampered)
    && |w.db.rows| <= |w'.db.rows|
    && w.promotedEver <= w'.promotedEver
    && forall i :: 0 <= i < |w.db.rows| ==> SameIdentity(w.db.rows[i], w'.db.rows[i])
  }

  predicate SameIdentity(row: Row, row': Row) {
    && row'.txId == row.txId && row'.baseTxId == row.baseTxId && row'.binPath == row.binPath
    && (row'.status == row.status || IsValidTransition(row.status, row'.status))
    && (!BeforeTests(row.status) ==> row'.sha256 == row.sha256)
  }

  /** What a statement leaves alone for the owner of `tx` when it does not itself need that ownership. */
  predicate Spares(w: World, w': World, tx: string) {
    var i := IndexOf(w.db.rows, tx);
    i < |w.db.rows| && i < |w'.db.rows| && BeforeTests(w.db.rows[i].status) ==>
      && BeforeTests(w'.db.rows[i].status)
      && w'.db.rows[i].sha256 == w.db.rows[i].sha256
      && (!w'.tampered && BinPath(w.root, tx) in w.disk ==>
            BinPath(w.root, tx) in w'.disk && w'.disk[BinPath(w.root, tx)] == w.disk[BinPath(w.root, tx)])
  }

  // ------------------------------------------------------------- small facts

  lemma IndexStable(w: World, w': World, tx: string)
    requires Grows(w, w') && Has(w.db.rows, tx)
    ensures IndexOf(w'.db.rows, tx) == IndexOf(w.db.rows, tx)
  {
    var i := IndexOf(w.db.rows, tx);
    forall j | 0 <= j <= i
      ensures w'.db.rows[j].txId == w.db.rows[j].txId
    {
      assert SameIdentity(w.db.rows[j], w'.db.rows[j]);
    }
  }

  lemma IndexUnique(rows: seq<Row>, i: nat)
    requires Unique(rows) && i < |rows|
    ensures IndexOf(rows, rows[i].txId) == i
  {
  }

  /** Different transactions have different binaries. */
  lemma BinPathInjective(root: string, tx: string, tx': string)
    requires BinPath(root, tx) == BinPath(root, tx')
    ensures tx == tx'
  {
    var p, p' := BinPath(root, tx), BinPath(root, tx');
    assert |p| == |root| + 1 + |tx| + 7 && |p'| == |root| + 1 + |tx'| + 7;
    assert tx == p[|root| + 1..|p| - 7] && tx' == p'[|root| + 1..|p'| - 7];
  }

  lemma TxIdUntrimmed(tx: string)
    requires IsTxId(tx)
    ensures Text.TrimSpace(tx) == tx && NullIfEmpty(tx) == Some(tx)
  {
    Text.NoSpaceUntrimmed(tx);
  }

  lemma DigestUntrimmed(d: string)
    requires IsDigest(d)
    ensures NullIfEmpty(d) == Some(d)
  {
    Text.NoSpaceUntrimmed(d);
    assert d[0] in d;
  }

  // ------------------------------------------------- statements keep the store

  /** A row keeps its invariant when its identity, trail and seal are kept. */
  lemma RowKeeps(w: World, w': World, i: nat)
    requires i < |w.db.rows| && RowOk(w, i) && Grows(w, w')
    requires w'.db.rows[i].status.Promoted? ==> w'.db.rows[i].txId in w'.promotedEver
    requires i == 0 ==> w'.db.rows[0].status.Promoted? && Trail(w'.db.log, w.db.rows[0].txId) == []
    requires 0 < i ==>
               && TrailFits(Trail(w'.db.log, w.db.rows[i].txId), w'.db.rows[i].status)
               && (!BeforeTests(w'.db.rows[i].status) ==> Sealed(w', w'.db.rows[i]))
    ensures RowOk(w', i)
  {
    assert SameIdentity(w.db.rows[i], w'.db.rows[i]);
    if 0 < i {
      IndexStable(w, w', w.db.rows[i].baseTxId.value);
    }
  }

  ghost predicate PromotedRecord(w: World, tx: string) {
    Has(w.db.rows, tx) && PromotedOrLater(w.db.rows[IndexOf(w.db.rows, tx)].status)
  }

  lemma PromotedKeeps(w: World, w': World, tx: string)
    requires Grows(w, w') && PromotedRecord(w, tx)
    ensures PromotedRecord(w', tx)
  {
    IndexStable(w, w', tx);
    var i := IndexOf(w.db.rows, tx);
    assert SameIdentity(w.db.rows[i], w'.db.rows[i]);
  }

  lemma UniqueKeeps(w: World, w': World)
    requires Grows(w, w') && Unique(w.db.rows) && |w'.db.rows| == |w.db.rows|
    ensures Unique(w'.db.rows)
  {
    forall i | 0 <= i < |w.db.rows|
      ensures w'.db.rows[i].txId == w.db.rows[i].txId
    {
      assert SameIdentity(w.db.rows[i], w'.db.rows[i]);
    }
  }

  lemma LinkKeeps(w: World, w': World)
    requires Grows(w, w') && LinkOk(w) && w'.link == w.link
    ensures LinkOk(w')
  {
    var k :| 0 <= k < |w.db.rows| && w.link == w.db.rows[k].binPath && Vetted(w, k);
    assert SameIdentity(w.db.rows[k], w'.db.rows[k]);
    assert Vetted(w', k);
  }

  /** A row that is promoted now has, from now on, been promoted. */
  lemma NowPromoted(w: World, tx: string)
    requires Unique(w.db.rows) && tx in PromotedTxs(w.db.rows)
    ensures PromotedRecord(w, tx)
  {
    var i :| 0 <= i < |w.db.rows| && w.db.rows[i].status.Promoted? && w.db.rows[i].txId == tx;
    IndexUnique(w.db.rows, i);
  }

  /** An update of existing rows keeps the store if it keeps each row's invariant and the empty trails. */
  lemma RowsKeep(w: World, w': World)
    requires StoreOk(w) && Grows(w, w') && |w'.db.rows| == |w.db.rows| && w'.link == w.link
    requires w'.promotedEver == w.promotedEver + PromotedTxs(w'.db.rows)
    requires forall i :: 0 <= i < |w.db.rows| ==> RowOk(w', i)
    requires forall tx :: !Has(w.db.rows, tx) ==> Trail(w'.db.log, tx) == []
    ensures StoreOk(w')
  {
    UniqueKeeps(w, w');
    LinkKeeps(w, w');
    forall tx | tx in w'.promotedEver
      ensures PromotedRecord(w', tx)
    {
      if tx in w.promotedEver {
        PromotedKeeps(w, w', tx);
      } else {
        NowPromoted(w', tx);
      }
    }
    forall tx | !Has(w'.db.rows, tx)
      ensures Trail(w'.db.log, tx) == []
    {
      if Has(w.db.rows, tx) {
        IndexStable(w, w', tx);
      }
    }
  }

  lemma UpdateGrows(w: World, tx: string, from: Status, write: Write, event: Option<Kind>, now: int)
    requires IsValidTransition(from, write.to)
    ensures Grows(w, Apply(w, Update(tx, from, write, event), now))
  {
    var w' := Apply(w, Update(tx, from, write, event), now);
    forall i | 0 <= i < |w.db.rows|
      ensures SameIdentity(w.db.rows[i], w'.db.rows[i])
    {
    }
  }

  lemma UpdateTrail(db: Db, tx: string, from: Status, write: Write, event: Option<Kind>, now: int, t: string)
    requires event.Some? ==> Tracked(event.value)
    ensures Trail(Cas(db, tx, from, write, event, now).log, t)
            == if event.Some? && t == tx && Matches(db.rows, tx, from)
               then Trail(db.log, t) + [event.value]
               else Trail(db.log, t)
  {
    if event.Some? {
      TrailAppend(db.log, Event(event.value, tx), t);
    }
  }

  lemma UpdateKeepsRow(w: World, tx: string, from: Status, write: Write, event: Option<Kind>, now: int, i: nat)
    requires Allowed(w, Update(tx, from, write, event))
    requires i < |w.db.rows| && Unique(w.db.rows) && RowOk(w, i)
    ensures RowOk(Apply(w, Update(tx, from, write, event), now), i)
  {
    hide BinPath, IsTxId, IsDigest, NullIfEmpty, Trail, IndexOf;
    var w' := Apply(w, Update(tx, from, write, event), now);
    var row := w.db.rows[i];
    UpdateGrows(w, tx, from, write, event, now);
    UpdateTrail(w.db, tx, from, write, event, now, row.txId);
    CasTouchesOneRow(w.db, tx, from, write, event, now);
    IndexUnique(w.db.rows, i);
    if Hit(row, tx, from) {
      assert i != 0;
      TrailAdvances(Trail(w.db.log, tx), from, write.to, event);
      if write.to.Promoted? {
        assert w'.db.rows[i].txId in PromotedTxs(w'.db.rows);
      }
    }
    RowKeeps(w, w', i);
  }

  lemma UpdateSpares(w: World, tx: string, from: Status, write: Write, event: Option<Kind>, now: int, t: string)
    requires IsValidTransition(from, write.to)
    requires Needs(Update(tx, from, write, event)) != Some(t)
    ensures Spares(w, Apply(w, Update(tx, from, write, event), now), t)
  {
  }

  lemma UpdateKeeps(w: World, tx: string, from: Status, write: Write, event: Option<Kind>, now: int)
    requires StoreOk(w) && Allowed(w, Update(tx, from, write, event))
    ensures StoreOk(Apply(w, Update(tx, from, write, event), now))
  {
    var w' := Apply(w, Update(tx, from, write, event), now);
    UpdateGrows(w, tx, from, write, event, now);
    forall i | 0 <= i < |w.db.rows|
      ensures RowOk(w', i)
    {
      UpdateKeepsRow(w, tx, from, write, event, now, i);
    }
    forall t | !Has(w.db.rows, t)
      ensures Trail(w'.db.log, t) == []
    {
      UpdateTrail(w.db, tx, from, write, event, now, t);
      if t == tx && Matches(w.db.rows, tx, from) {
        CasTouchesOneRow(w.db, tx, from, write, event, now);
      }
    }
    RowsKeep(w, w');
  }

  lemma CleanUpGrows(w: World, now: int)
    ensures Grows(w, Apply(w, CleanUp, now))
    ensures forall t :: Spares(w, Apply(w, CleanUp, now), t)
  {
    var w' := Apply(w, CleanUp, now);
    forall i | 0 <= i < |w.db.rows|
      ensures SameIdentity(w.db.rows[i], w'.db.rows[i])
    {
    }
  }

  lemma CleanUpKeepsRow(w: World, now: int, i: nat)
    requires i < |w.db.rows| && RowOk(w, i)
    ensures RowOk(Apply(w, CleanUp, now), i)
  {
    CleanUpGrows(w, now);
    RowKeeps(w, Apply(w, CleanUp, now), i);
  }

  lemma CleanUpKeeps(w: World, now: int)
    requires StoreOk(w)
    ensures StoreOk(Apply(w, CleanUp, now))
  {
    var w' := Apply(w, CleanUp, now);
    CleanUpGrows(w, now);
    forall i | 0 <= i < |w.db.rows|
      ensures RowOk(w', i)
    {
      CleanUpKeepsRow(w, now, i);
    }
    RowsKeep(w, w');
  }

  lemma MetadataGrows(w: World, tx: string, sha: Digest, now: int)
    requires Unique(w.db.rows) && Owned(w, tx)
    ensures Grows(w, Apply(w, Metadata(tx, sha), now))
    ensures forall t :: t != tx ==> Spares(w, Apply(w, Metadata(tx, sha), now), t)
  {
    var w' := Apply(w, Metadata(tx, sha), now);
    forall i | 0 <= i < |w.db.rows|
      ensures SameIdentity(w.db.rows[i], w'.db.rows[i])
    {
      IndexUnique(w.db.rows, i);
    }
  }

  lemma MetadataKeepsRow(w: World, tx: string, sha: Digest, now: int, i: nat)
    requires Owned(w, tx) && i < |w.db.rows| && Unique(w.db.rows) && RowOk(w, i)
    ensures RowOk(Apply(w, Metadata(tx, sha), now), i)
  {
    IndexUnique(w.db.rows, i);
    MetadataGrows(w, tx, sha, now);
    RowKeeps(w, Apply(w, Metadata(tx, sha), now), i);
  }

  lemma MetadataKeeps(w: World, tx: string, sha: Digest, now: int)
    requires StoreOk(w) && Owned(w, tx)
    ensures StoreOk(Apply(w, Metadata(tx, sha), now))
  {
    var w' := Apply(w, Metadata(tx, sha), now);
    MetadataGrows(w, tx, sha, now);
    forall i | 0 <= i < |w.db.rows|
      ensures RowOk(w', i)
    {
      MetadataKeepsRow(w, tx, sha, now, i);
    }
    RowsKeep(w, w');
  }

  lemma LogKeeps(w: World, kind: Kind, tx: string, now: int)
    requires StoreOk(w) && !Tracked(kind)
    ensures StoreOk(Apply(w, Log(kind, tx), now))
  {
    var w' := Apply(w, Log(kind, tx), now);
    forall t
      ensures Trail(w'.db.log, t) == Trail(w.db.log, t)
    {
      TrailAppend(w.db.log, Event(kind, tx), t);
    }
    assert forall i :: 0 <= i < |w.db.rows| ==> RowOk(w, i) ==> RowOk(w', i);
    LinkKeeps(w, w');
    assert forall t :: PromotedRecord(w, t) ==> PromotedRecord(w', t);
  }

  lemma SwitchKeeps(w: World, path: string, now: int)
    requires StoreOk(w) && Allowed(w, Switch(path))
    ensures StoreOk(Apply(w, Switch(path), now))
  {
    var w' := Apply(w, Switch(path), now);
    assert forall i :: 0 <= i < |w.db.rows| ==> RowOk(w, i) ==> RowOk(w', i);
    assert forall t :: PromotedRecord(w, t) ==> PromotedRecord(w', t);
    var k :| 0 <= k < |w.db.rows| && path == w.db.rows[k].binPath && Vetted(w, k);
    assert Vetted(w', k);
  }

  lemma WriteBinaryKeepsRow(w: World, tx: string, digest: Digest, now: int, i: nat)
    requires Owned(w, tx) && i < |w.db.rows| && Unique(w.db.rows) && RowOk(w, i)
    ensures RowOk(Apply(w, WriteBinary(tx, digest), now), i)
  {
    if w.db.rows[i].binPath == BinPath(w.root, tx) {
      BinPathInjective(w.root, w.db.rows[i].txId, tx);
      IndexUnique(w.db.rows, i);
    }
  }

  lemma WriteBinarySpares(w: World, tx: string, digest: Digest, now: int, t: string)
    requires t != tx
    ensures Spares(w, Apply(w, WriteBinary(tx, digest), now), t)
  {
    if BinPath(w.root, t) == BinPath(w.root, tx) {
      BinPathInjective(w.root, t, tx);
    }
  }

  lemma WriteBinaryKeeps(w: World, tx: string, digest: Digest, now: int)
    requires StoreOk(w) && Owned(w, tx)
    ensures StoreOk(Apply(w, WriteBinary(tx, digest), now))
  {
    var w' := Apply(w, WriteBinary(tx, digest), now);
    forall i | 0 <= i < |w.db.rows|
      ensures RowOk(w', i)
    {
      WriteBinaryKeepsRow(w, tx, digest, now, i);
    }
    LinkKeeps(w, w');
    assert forall t :: PromotedRecord(w, t) ==> PromotedRecord(w', t);
  }

  lemma BinPathUntrimmed(root: string, tx: string)
    requires IsAbsolute(root)
    ensures Text.TrimSpace(BinPath(root, tx)) == BinPath(root, tx)
  {
    var p := BinPath(root, tx);
    assert p[0] == '/' && p[|p| - 1] == 'r';
  }

  /** An insert that succeeds appends one created row and its event. */
  lemma InsertAppends(w: World, tx: string, base: string, now: int)
    requires StoreOk(w) && Allowed(w, InsertCreated(tx, base)) && !Has(w.db.rows, tx)
    ensures Insert(w.db, tx, base, BinPath(w.root, tx), Created, Some(TxnCreatedEvent), now)
            == Ok(Db(w.db.rows + [NewRow(tx, Some(base), BinPath(w.root, tx), Created, now)],
                     w.db.log + [Event(TxnCreatedEvent, tx)]))
    ensures IndexOf(w.db.rows, base) < |w.db.rows| && IsTxId(base)
  {
    TxIdUntrimmed(tx);
    BinPathUntrimmed(w.root, tx);
    assert PromotedRecord(w, base);
    var b := IndexOf(w.db.rows, base);
    assert RowOk(w, b);
    TxIdUntrimmed(base);
  }

  lemma InsertRefused(w: World, tx: string, base: string, now: int)
    requires IsTxId(tx) && Has(w.db.rows, tx)
    ensures Apply(w, InsertCreated(tx, base), now) == w
    ensures Insert(w.db, tx, base, BinPath(w.root, tx), Created, Some(TxnCreatedEvent), now).Err?
  {
    TxIdUntrimmed(tx);
  }

  lemma InsertGrows(w: World, tx: string, base: string, now: int)
    requires StoreOk(w) && Allowed(w, InsertCreated(tx, base))
    ensures Grows(w, Apply(w, InsertCreated(tx, base), now))
    ensures forall t :: Spares(w, Apply(w, InsertCreated(tx, base), now), t)
  {
    if Has(w.db.rows, tx) {
      InsertRefused(w, tx, base, now);
    } else {
      InsertAppends(w, tx, base, now);
    }
  }

  lemma IndexAfterAppend(rows: seq<Row>, row: Row, tx: string)
    ensures IndexOf(rows + [row], tx) == if !Has(rows, tx) && row.txId != tx then |rows| + 1 else IndexOf(rows, tx)
  {
    assert (rows + [row])[..|rows|] == rows;
  }

  lemma InsertKeepsRow(w: World, tx: string, base: string, now: int, i: nat)
    requires StoreOk(w) && Allowed(w, InsertCreated(tx, base)) && !Has(w.db.rows, tx) && i < |w.db.rows|
    ensures RowOk(Apply(w, InsertCreated(tx, base), now), i)
  {
    var w' := Apply(w, InsertCreated(tx, base), now);
    assert RowOk(w, i);
    InsertAppends(w, tx, base, now);
    InsertGrows(w, tx, base, now);
    TrailAppend(w.db.log, Event(TxnCreatedEvent, tx), w.db.rows[i].txId);
    RowKeeps(w, w', i);
  }

  lemma InsertedRowOk(w: World, tx: string, base: string, now: int)
    requires StoreOk(w) && Allowed(w, InsertCreated(tx, base)) && !Has(w.db.rows, tx)
    ensures |Apply(w, InsertCreated(tx, base), now).db.rows| == |w.db.rows| + 1
    ensures RowOk(Apply(w, InsertCreated(tx, base), now), |w.db.rows|)
  {
    var w' := Apply(w, InsertCreated(tx, base), now);
    var row := NewRow(tx, Some(base), BinPath(w.root, tx), Created, now);
    InsertAppends(w, tx, base, now);
    IndexAfterAppend(w.db.rows, row, base);
    TrailAppend(w.db.log, Event(TxnCreatedEvent, tx), tx);
    assert w'.db.rows[|w.db.rows|] == row;
  }

  lemma InsertKeeps(w: World, tx: string, base: string, now: int)
    requires StoreOk(w) && Allowed(w, InsertCreated(tx, base))
    ensures StoreOk(Apply(w, InsertCreated(tx, base), now))
  {
    var w' := Apply(w, InsertCreated(tx, base), now);
    if Has(w.db.rows, tx) {
      InsertRefused(w, tx, base, now);
    } else {
      var row := NewRow(tx, Some(base), BinPath(w.root, tx), Created, now);
      InsertAppends(w, tx, base, now);
      InsertGrows(w, tx, base, now);
      InsertedRowOk(w, tx, base, now);
      forall i | 0 <= i < |w'.db.rows|
        ensures RowOk(w', i)
      {
        if i < |w.db.rows| {
          InsertKeepsRow(w, tx, base, now, i);
        }
      }
      InsertKeepsRest(w, w', row);
    }
  }

  lemma InsertKeepsRest(w: World, w': World, row: Row)
    requires StoreOk(w) && Grows(w, w') && row.status.Created? && !Has(w.db.rows, row.txId)
    requires w' == WithDb(w, Db(w.db.rows + [row], w.db.log + [Event(TxnCreatedEvent, row.txId)]))
    requires forall i :: 0 <= i < |w'.db.rows| ==> RowOk(w', i)
    ensures StoreOk(w')
  {
    LinkKeeps(w, w');
    forall i | 0 <= i < |w'.db.rows| && w'.db.rows[i].status.Promoted?
      ensures w'.db.rows[i].txId in w.promotedEver
    {
      assert RowOk(w, i);
    }
    assert w'.promotedEver == w.promotedEver;
    forall tx | tx in w'.promotedEver
      ensures PromotedRecord(w', tx)
    {
      PromotedKeeps(w, w', tx);
    }
    forall tx | !Has(w'.db.rows, tx)
      ensures Trail(w'.db.log, tx) == []
    {
      IndexAfterAppend(w.db.rows, row, tx);
      TrailAppend(w.db.log, Event(TxnCreatedEvent, row.txId), tx);
    }
  }

  /** Every allowed statement keeps the store invariant and its promises to the other processes. */
  lemma ApplyKeeps(w: World, s: Stmt, now: int)
    requires StoreOk(w) && Allowed(w, s)
    ensures StoreOk(Apply(w, s, now))
    ensures Grows(w, Apply(w, s, now))
    ensures forall t :: Needs(s) != Some(t) ==> Spares(w, Apply(w, s, now), t)
  {
    match s
    case Skip =>
    case InsertCreated(tx, base) =>
      InsertKeeps(w, tx, base, now);
      InsertGrows(w, tx, base, now);
    case Update(tx, from, write, event) =>
      UpdateKeeps(w, tx, from, write, event, now);
      UpdateGrows(w, tx, from, write, event, now);
      forall t | Needs(s) != Some(t)
        ensures Spares(w, Apply(w, s, now), t)
      {
        UpdateSpares(w, tx, from, write, event, now, t);
      }
    case CleanUp =>
      CleanUpKeeps(w, now);
      CleanUpGrows(w, now);
    case Metadata(tx, sha) =>
      MetadataKeeps(w, tx, sha, now);
      MetadataGrows(w, tx, sha, now);
    case Log(kind, tx) =>
      LogKeeps(w, kind, tx, now);
    case Switch(path) =>
      SwitchKeeps(w, path, now);
    case WriteBinary(tx, digest) =>
      WriteBinaryKeeps(w, tx, digest, now);
      forall t | t != tx
        ensures Spares(w, Apply(w, s, now), t)
      {
        WriteBinarySpares(w, tx, digest, now, t);
      }
  }
}

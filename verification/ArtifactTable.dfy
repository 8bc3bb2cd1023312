/**
 The artifacts table and the event log as values, and what each SQL statement of the repository does to them.

 Rows are never deleted and AUTOINCREMENT numbers them in insertion order, so the id of a row is its
 position plus one; the same holds for events. `ORDER BY id` is the order of the sequence.
 */
module ArtifactTable {
  import opened Options
  import opened ArtifactStatus
  import Text

  datatype Row = Row(
    txId: string,
    baseTxId: Option<string>,
    binPath: string,
    sha256: Option<string>,
    approvalChat: Option<int>,
    deployStartedAt: Option<int>,
    deployFinishedAt: Option<int>,
    status: Status,
    lastError: Option<string>,
    createdAt: int,
    updatedAt: int)

  /** The `update.*` event types; `Unrelated` stands for every other type in the log. */
  datatype Kind =
    | TxnCreatedEvent
    | BuildStartedEvent
    | BuildFailedEvent
    | BuildCompletedEvent
    | TestStartedEvent
    | TestFailedEvent
    | TestCompletedEvent
    | SelfCheckStartedEvent
    | SelfCheckFailedEvent
    | SelfCheckCompletedEvent
    | StagedEvent
    | ApprovedEvent
    | CancelledEvent
    | RollbackRequestedEvent
    | DeployStartedEvent
    | DeployFailedEvent
    | DeployCompletedEvent
    | PromotedEvent
    | RollbackAttemptedEvent
    | RollbackCompletedEvent
    | CleanupCompletedEvent
    | Unrelated

  datatype Event = Event(kind: Kind, txId: string)

  datatype Db = Db(rows: seq<Row>, log: seq<Event>)

  datatype DbError = ArtifactNotFound | InvalidStatusTransition | EmptyField | UniqueViolation

  const BOOTSTRAP: string := "bootstrap"

  // ---------------------------------------------------------------- queries

  /** Position of the row of a transaction, or the number of rows when there is none. */
  function IndexOf(rows: seq<Row>, tx: string): (i: nat)
    ensures i <= |rows|
    ensures i < |rows| ==> rows[i].txId == tx
    ensures forall j :: 0 <= j < i ==> rows[j].txId != tx
  {
    if |rows| == 0 then 0
    else
      var i := IndexOf(rows[..|rows| - 1], tx);
      if i == |rows| - 1 && rows[i].txId != tx then |rows| else i
  }

  predicate Has(rows: seq<Row>, tx: string) {
    IndexOf(rows, tx) < |rows|
  }

  /** SELECT ... WHERE status = ? ORDER BY id DESC LIMIT 1 */
  function LatestWithStatus(rows: seq<Row>, status: Status): (r: Option<nat>)
    ensures r.Some? ==> r.value < |rows| && rows[r.value].status == status
    ensures r.Some? ==> forall j :: r.value < j < |rows| ==> rows[j].status != status
    ensures r.None? ==> forall j :: 0 <= j < |rows| ==> rows[j].status != status
  {
    if |rows| == 0 then None
    else if rows[|rows| - 1].status == status then Some(|rows| - 1)
    else LatestWithStatus(rows[..|rows| - 1], status)
  }

  /** The empty string stands for "no promoted row". */
  function LatestPromotedTx(rows: seq<Row>): string {
    match LatestWithStatus(rows, Promoted)
    case None => ""
    case Some(i) => rows[i].txId
  }

  /** ORDER BY created_at ASC, id ASC */
  predicate ComesFirst(rows: seq<Row>, i: nat, j: nat)
    requires i < |rows| && j < |rows|
  {
    rows[i].createdAt < rows[j].createdAt || (rows[i].createdAt == rows[j].createdAt && i <= j)
  }

  /** An approved row that was created before all other approved ones, or first among those created with it. */
  predicate Oldest(rows: seq<Row>, i: nat) {
    && i < |rows| && rows[i].status == Approved
    && (forall j :: 0 <= j < |rows| && rows[j].status == Approved ==> rows[i].createdAt <= rows[j].createdAt)
    && forall j :: 0 <= j < i && rows[j].status == Approved ==> rows[i].createdAt < rows[j].createdAt
  }

  /** The approved row that is deployed next. */
  function FirstApproved(rows: seq<Row>): (r: Option<nat>)
    ensures r.None? ==> forall j :: 0 <= j < |rows| ==> rows[j].status != Approved
    ensures r.Some? ==> r.value < |rows| && rows[r.value].status == Approved
    ensures r.Some? ==> forall j :: 0 <= j < |rows| && rows[j].status == Approved ==> ComesFirst(rows, r.value, j)
  {
    if |rows| == 0 then None
    else
      var last := |rows| - 1;
      var r := FirstApproved(rows[..last]);
      if rows[last].status == Approved && (r.None? || rows[last].createdAt < rows[r.value].createdAt)
      then Some(last)
      else r
  }

  /** SQL NULL or blank text counts as "no base". */
  predicate HasBase(row: Row) {
    row.baseTxId.Some? && Text.TrimSpace(row.baseTxId.value) != ""
  }

  /** Go's NullString.String: NULL reads as the empty string. */
  function BaseString(row: Row): string {
    if row.baseTxId.Some? then row.baseTxId.value else ""
  }

  function NullIfEmpty(s: string): Option<string> {
    if Text.TrimSpace(s) == "" then None else Some(s)
  }

  const DB_TEXT_LIMIT: nat := 2000

  function TruncateForDB(s: string): string {
    if |s| <= DB_TEXT_LIMIT then s else s[..DB_TEXT_LIMIT]
  }

  // ---------------------------------------------------------------- statements

  /** The SET list of one of the repository's status updates; `None` leaves a column alone. */
  datatype Write = Write(
    to: Status,
    lastError: Option<Option<string>> := None,
    chat: Option<int> := None,
    deployStarted: bool := false,
    deployFinished: bool := false)

  function Written(row: Row, w: Write, now: int): Row {
    row.(status := w.to,
         lastError := if w.lastError.Some? then w.lastError.value else row.lastError,
         approvalChat := if w.chat.Some? then w.chat else row.approvalChat,
         deployStartedAt := if w.deployStarted then Some(now) else row.deployStartedAt,
         deployFinishedAt := if w.deployFinished then Some(now) else row.deployFinishedAt,
         updatedAt := now)
  }

  /** The SET list of TransitionArtifactStatus and its variant with an event. */
  function TransitionWrite(to: Status, lastError: string): Write {
    Write(to, lastError := Some(NullIfEmpty(lastError)))
  }

  predicate Hit(row: Row, tx: string, from: Status) {
    row.txId == tx && row.status == from
  }

  /** WHERE tx_id = ? AND status = ? selects at least one row. */
  predicate Matches(rows: seq<Row>, tx: string, from: Status) {
    exists i :: 0 <= i < |rows| && Hit(rows[i], tx, from)
  }

  function UpdateWhere(rows: seq<Row>, tx: string, from: Status, w: Write, now: int): (r: seq<Row>)
    ensures |r| == |rows|
  {
    seq(|rows|, i requires 0 <= i < |rows| =>
      if Hit(rows[i], tx, from) then Written(rows[i], w, now) else rows[i])
  }

  /** A compare-and-set update; its event is written in the same transaction, only when a row changed. */
  function Cas(db: Db, tx: string, from: Status, w: Write, event: Option<Kind>, now: int): Db {
    if Matches(db.rows, tx, from)
    then Db(UpdateWhere(db.rows, tx, from, w, now),
            if event.Some? then db.log + [Event(event.value, tx)] else db.log)
    else db
  }

  const INTERRUPTED: string := "interrupted during startup cleanup"

  function CleanedRow(row: Row, now: int): Row {
    if CleanedStatus(row.status) != row.status
    then row.(status := CleanedStatus(row.status), lastError := Some(INTERRUPTED), updatedAt := now)
    else row
  }

  function Cleaned(rows: seq<Row>, now: int): (r: seq<Row>)
    ensures |r| == |rows|
  {
    seq(|rows|, i requires 0 <= i < |rows| => CleanedRow(rows[i], now))
  }

  /** The work on the row is in the hands of a process. */
  predicate InProgress(row: Row) {
    row.status in {Building, Testing, SelfChecking, Deploying}
  }

  /** What has to become of a row that a process was working on when everything stopped. */
  predicate Swept(row: Row, row': Row, now: int) {
    match row.status
    case Building =>
      row' == row.(status := BuildFailed, lastError := Some("interrupted during startup cleanup"), updatedAt := now)
    case Testing =>
      row' == row.(status := TestFailed, lastError := Some("interrupted during startup cleanup"), updatedAt := now)
    case SelfChecking =>
      row' == row.(status := SelfCheckFailed, lastError := Some("interrupted during startup cleanup"), updatedAt := now)
    case Deploying =>
      row' == row.(status := DeployFailed, lastError := Some("interrupted during startup cleanup"), updatedAt := now)
    case _ => row' == row
  }

  /** Cleanup sweeps the whole table, and leaves nothing in progress. */
  lemma CleanupSweeps(rows: seq<Row>, now: int, i: nat)
    requires i < |rows|
    ensures Swept(rows[i], Cleaned(rows, now)[i], now) && !InProgress(Cleaned(rows, now)[i])
    ensures InProgress(rows[i]) <==> CleanedRow(rows[i], now).status != rows[i].status
  {
  }

  /** The positions below n of the rows that were in progress. */
  ghost function InProgressBelow(rows: seq<Row>, n: nat): set<int>
    requires n <= |rows|
  {
    set j | 0 <= j < n && InProgress(rows[j])
  }

  lemma InProgressNext(rows: seq<Row>, n: nat)
    requires n < |rows|
    ensures |InProgressBelow(rows, n + 1)| == |InProgressBelow(rows, n)| + if InProgress(rows[n]) then 1 else 0
  {
    var below := InProgressBelow(rows, n);
    assert InProgressBelow(rows, n + 1) == if InProgress(rows[n]) then below + {n} else below;
  }

  function WithMetadata(rows: seq<Row>, tx: string, sha: string, now: int): (r: seq<Row>)
    ensures |r| == |rows|
  {
    seq(|rows|, i requires 0 <= i < |rows| =>
      if rows[i].txId == tx then rows[i].(sha256 := NullIfEmpty(sha), updatedAt := now) else rows[i])
  }

  function NewRow(tx: string, base: Option<string>, bin: string, status: Status, now: int): Row {
    Row(tx, base, bin, None, None, None, None, status, None, now, now)
  }

  /** INSERT of a new row with its event; the UNIQUE constraint on tx_id can reject it. */
  function Insert(db: Db, tx: string, base: string, bin: string, status: Status, event: Option<Kind>, now: int)
    : Result<Db, DbError>
  {
    var tx', bin' := Text.TrimSpace(tx), Text.TrimSpace(bin);
    if tx' == "" || bin' == "" then Err(EmptyField)
    else if Has(db.rows, tx') then Err(UniqueViolation)
    else
      Ok(Db(db.rows + [NewRow(tx', NullIfEmpty(base), bin', status, now)],
            if event.Some? then db.log + [Event(event.value, tx')] else db.log))
  }

  /** INSERT OR IGNORE of the promoted bootstrap row. */
  function EnsureBootstrap(db: Db, tx: string, bin: string, now: int): Result<Db, DbError> {
    var tx', bin' := Text.TrimSpace(tx), Text.TrimSpace(bin);
    if tx' == "" || bin' == "" then Err(EmptyField)
    else if Has(db.rows, tx') then Ok(db)
    else Ok(db.(rows := db.rows + [NewRow(tx', None, bin', Promoted, now)]))
  }

  function Logged(db: Db, kind: Kind, tx: string): Db {
    db.(log := db.log + [Event(kind, tx)])
  }

  /** Exactly the rows of a transaction that have a status are rewritten, in the way given. */
  predicate Rewritten(rows: seq<Row>, rows': seq<Row>, tx: string, from: Status, f: Row -> Row) {
    && |rows'| == |rows|
    && forall j :: 0 <= j < |rows| ==>
         rows'[j] == if rows[j].txId == tx && rows[j].status == from then f(rows[j]) else rows[j]
  }

  /** Text that is NULL in the database when blank. */
  function TextOrNull(s: string): Option<string> {
    if Text.IsBlank(s) then None else Some(s)
  }

  lemma BlankIsNull(s: string)
    ensures NullIfEmpty(s) == TextOrNull(s)
  {
    Text.BlankIffNothing(s);
  }

  lemma BaseIffNotBlank(row: Row)
    ensures HasBase(row) <==> row.baseTxId.Some? && !Text.IsBlank(row.baseTxId.value)
  {
    if row.baseTxId.Some? {
      Text.BlankIffNothing(row.baseTxId.value);
    }
  }

  /** Under the UNIQUE constraint a tx_id names one row. */
  predicate Unique(rows: seq<Row>) {
    forall i, j :: 0 <= i < j < |rows| ==> rows[i].txId != rows[j].txId
  }

  /** With unique tx_ids a compare-and-set touches at most the row it names. */
  lemma CasTouchesOneRow(db: Db, tx: string, from: Status, w: Write, event: Option<Kind>, now: int)
    requires Unique(db.rows)
    ensures var i := IndexOf(db.rows, tx);
            && Matches(db.rows, tx, from) == (i < |db.rows| && db.rows[i].status == from)
            && Cas(db, tx, from, w, event, now).rows
               == (if i < |db.rows| && db.rows[i].status == from
                   then db.rows[i := Written(db.rows[i], w, now)]
                   else db.rows)
  {
    var i := IndexOf(db.rows, tx);
    if i < |db.rows| {
      assert forall j :: 0 <= j < |db.rows| && db.rows[j].txId == tx ==> j == i;
      if db.rows[i].status == from {
        assert Hit(db.rows[i], tx, from);
        assert Cas(db, tx, from, w, event, now).rows == db.rows[i := Written(db.rows[i], w, now)];
      }
    }
  }
}

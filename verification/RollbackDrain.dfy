/**
 Draining the pending rollbacks at the head of the supervisor loop, before any worker is started: the
 newest pending row is rolled back first, one per iteration.
 */
module RollbackDrain {
  import opened Options
  import opened ArtifactStatus
  import opened ArtifactTable

  /** The table and the active link, as the loop head sees them. */
  datatype Local = Local(rows: seq<Row>, link: string)

  /** Every pending row names a base that stands before it. */
  ghost predicate Drainable(rows: seq<Row>) {
    && Unique(rows)
    && forall i :: 0 <= i < |rows| && rows[i].status.RollbackPending? ==> IndexOf(rows, BaseString(rows[i])) < i
  }

  function Target(rows: seq<Row>, i: nat): string
    requires i < |rows| && IndexOf(rows, BaseString(rows[i])) < |rows|
  {
    rows[IndexOf(rows, BaseString(rows[i]))].binPath
  }

  function PendingCount(rows: seq<Row>): nat {
    if |rows| == 0 then 0
    else PendingCount(rows[..|rows| - 1]) + (if rows[|rows| - 1].status.RollbackPending? then 1 else 0)
  }

  /** The pending row with the lowest id. */
  function LowestPending(rows: seq<Row>): (r: Option<nat>)
    ensures r.None? ==> forall j :: 0 <= j < |rows| ==> !rows[j].status.RollbackPending?
    ensures r.Some? ==> r.value < |rows| && rows[r.value].status.RollbackPending?
    ensures r.Some? ==> forall j :: 0 <= j < r.value ==> !rows[j].status.RollbackPending?
  {
    if |rows| == 0 then None
    else
      var r := LowestPending(rows[..|rows| - 1]);
      if r.None? && rows[|rows| - 1].status.RollbackPending? then Some(|rows| - 1) else r
  }

  /** Where the link ends once every pending row has been rolled back. */
  function FinalLink(s: Local): string
    requires LowestPending(s.rows).Some? ==> IndexOf(s.rows, BaseString(s.rows[LowestPending(s.rows).value])) < |s.rows|
  {
    match LowestPending(s.rows)
    case None => s.link
    case Some(i) => Target(s.rows, i)
  }

  /** A row after the drain, apart from the time of its update. */
  function Settled(row: Row): Row {
    if row.status.RollbackPending?
    then row.(status := RolledBack, lastError := None, updatedAt := 0)
    else row.(updatedAt := 0)
  }

  /** The table after the drain, apart from the times of the updates. */
  function FinalRows(rows: seq<Row>): (r: seq<Row>)
    ensures |r| == |rows|
  {
    seq(|rows|, i requires 0 <= i < |rows| => Settled(rows[i]))
  }

  /** One pass of the loop head: switch the link to the base of the newest pending row, then mark the row. */
  function DrainStep(s: Local, now: int): Local
    requires Drainable(s.rows)
  {
    match LatestWithStatus(s.rows, RollbackPending)
    case None => s
    case Some(i) =>
      Local(UpdateWhere(s.rows, s.rows[i].txId, RollbackPending, TransitionWrite(RolledBack, ""), now),
            Target(s.rows, i))
  }

  /** Where a kill cuts a pass off. */
  datatype KillPoint = BeforeSwitch | BeforeMark | AfterMark

  /** What a pass leaves that is cut off there. */
  function CutOff(s: Local, at: KillPoint, now: int): Local
    requires Drainable(s.rows)
  {
    match at
    case BeforeSwitch => s
    case BeforeMark => s.(link := DrainStep(s, now).link)
    case AfterMark => DrainStep(s, now)
  }

  /**
   A supervisor that is started reaches the loop head through the startup cleanup. If the whole container
   was started, the link has been reset to the bootstrap binary before.
   */
  function Restarted(s: Local, relink: Option<string>, now: int): Local {
    Local(Cleaned(s.rows, now), if relink.Some? then relink.value else s.link)
  }

  /**
   A whole pass, or one that is killed and followed by a restart, with the clock at its mark and at the
   cleanup. All container restarts reset the link to the same path.
   */
  datatype Pass =
    | Whole(now: int)
    | Killed(at: KillPoint, now: int, container: bool, cleanedAt: int)

  function After(s: Local, pass: Pass, bootstrap: string): Local
    requires Drainable(s.rows)
  {
    match pass
    case Whole(now) => DrainStep(s, now)
    case Killed(at, now, container, cleanedAt) =>
      Restarted(CutOff(s, at, now), if container then Some(bootstrap) else None, cleanedAt)
  }

  // ------------------------------------------------------------------- lemmas

  lemma MarkChangesOneRow(rows: seq<Row>, i: nat, now: int)
    requires Unique(rows) && i < |rows| && rows[i].status.RollbackPending?
    ensures UpdateWhere(rows, rows[i].txId, RollbackPending, TransitionWrite(RolledBack, ""), now)
            == rows[i := Written(rows[i], TransitionWrite(RolledBack, ""), now)]
  {
  }

  lemma RolledBackWrite(row: Row, now: int)
    ensures Written(row, TransitionWrite(RolledBack, ""), now)
            == row.(status := RolledBack, lastError := None, updatedAt := now)
  {
  }

  lemma SameIndexes(rows: seq<Row>, rows': seq<Row>, tx: string)
    requires |rows'| == |rows| && forall j :: 0 <= j < |rows| ==> rows'[j].txId == rows[j].txId
    ensures IndexOf(rows', tx) == IndexOf(rows, tx)
  {
  }

  /** A pass keeps what the next pass needs. */
  lemma StepKeepsDrainable(s: Local, now: int)
    requires Drainable(s.rows)
    ensures Drainable(DrainStep(s, now).rows)
  {
    var s' := DrainStep(s, now);
    var top := LatestWithStatus(s.rows, RollbackPending);
    if top.Some? {
      MarkChangesOneRow(s.rows, top.value, now);
      forall i | 0 <= i < |s'.rows| && s'.rows[i].status.RollbackPending?
        ensures IndexOf(s'.rows, BaseString(s'.rows[i])) < i
      {
        assert s'.rows[i] == s.rows[i];
        SameIndexes(s.rows, s'.rows, BaseString(s.rows[i]));
      }
    }
  }

  lemma {:induction false} CountAfterMark(rows: seq<Row>, i: nat, row: Row)
    requires i < |rows| && rows[i].status.RollbackPending? && !row.status.RollbackPending?
    ensures PendingCount(rows[i := row]) == PendingCount(rows) - 1
  {
    var last := |rows| - 1;
    assert rows[i := row][..last] == if i == last then rows[..last] else rows[..last][i := row];
    if i < last {
      CountAfterMark(rows[..last], i, row);
    }
  }

  lemma {:induction false} CountZero(rows: seq<Row>)
    ensures PendingCount(rows) == 0 <==> forall i :: 0 <= i < |rows| ==> !rows[i].status.RollbackPending?
  {
    if |rows| > 0 {
      CountZero(rows[..|rows| - 1]);
    }
  }

  /** A whole pass takes exactly one row off the list of pending ones. */
  lemma StepCounts(s: Local, now: int)
    requires Drainable(s.rows) && LatestWithStatus(s.rows, RollbackPending).Some?
    ensures PendingCount(DrainStep(s, now).rows) == PendingCount(s.rows) - 1
  {
    var i := LatestWithStatus(s.rows, RollbackPending).value;
    MarkChangesOneRow(s.rows, i, now);
    CountAfterMark(s.rows, i, Written(s.rows[i], TransitionWrite(RolledBack, ""), now));
  }

  lemma LowestAfterMark(s: Local, now: int)
    requires Drainable(s.rows) && LatestWithStatus(s.rows, RollbackPending).Some?
    ensures var top := LatestWithStatus(s.rows, RollbackPending).value;
            var s' := DrainStep(s, now);
            LowestPending(s'.rows) == if LowestPending(s.rows).value == top then None else LowestPending(s.rows)
  {
    var top := LatestWithStatus(s.rows, RollbackPending).value;
    var s' := DrainStep(s, now);
    MarkChangesOneRow(s.rows, top, now);
    var low := LowestPending(s.rows).value;
    if low == top {
      assert forall j :: 0 <= j < |s.rows| ==> !s'.rows[j].status.RollbackPending?;
    } else {
      assert s'.rows[low] == s.rows[low];
      assert forall j :: 0 <= j < low ==> s'.rows[j] == s.rows[j];
    }
  }

  /** A whole pass changes neither the final table nor the final link. */
  lemma StepKeepsFinal(s: Local, now: int)
    requires Drainable(s.rows)
    ensures Drainable(DrainStep(s, now).rows)
    ensures var s' := DrainStep(s, now);
            FinalRows(s'.rows) == FinalRows(s.rows) && FinalLink(s') == FinalLink(s)
  {
    var s' := DrainStep(s, now);
    StepKeepsDrainable(s, now);
    var top := LatestWithStatus(s.rows, RollbackPending);
    if top.Some? {
      MarkChangesOneRow(s.rows, top.value, now);
      RolledBackWrite(s.rows[top.value], now);
      assert FinalRows(s'.rows) == FinalRows(s.rows);
      var low := LowestPending(s.rows).value;
      LowestAfterMark(s, now);
      if low != top.value {
        SameIndexes(s.rows, s'.rows, BaseString(s.rows[low]));
      }
    }
  }

  // -------------------------------------------------------- kills and restarts

  /** The startup cleanup leaves the pending rows, their bases and all paths alone. */
  lemma CleanupSpares(rows: seq<Row>, now: int, i: nat)
    requires i < |rows|
    ensures var row' := Cleaned(rows, now)[i];
            && row'.txId == rows[i].txId && row'.baseTxId == rows[i].baseTxId && row'.binPath == rows[i].binPath
            && (row'.status.RollbackPending? <==> rows[i].status.RollbackPending?)
            && (row'.status.RolledBack? <==> rows[i].status.RolledBack?)
            && (rows[i].status.RollbackPending? ==> row' == rows[i])
  {
  }

  lemma {:induction false} CountAfterCleanup(rows: seq<Row>, now: int)
    ensures PendingCount(Cleaned(rows, now)) == PendingCount(rows)
  {
    if |rows| > 0 {
      var init := rows[..|rows| - 1];
      assert Cleaned(rows, now)[..|rows| - 1] == Cleaned(init, now);
      CountAfterCleanup(init, now);
      CleanupSpares(rows, now, |rows| - 1);
    }
  }

  lemma CleanupKeepsIndex(rows: seq<Row>, now: int, tx: string)
    ensures IndexOf(Cleaned(rows, now), tx) == IndexOf(rows, tx)
  {
    forall j | 0 <= j < |rows|
      ensures Cleaned(rows, now)[j].txId == rows[j].txId
    {
      CleanupSpares(rows, now, j);
    }
    hide Cleaned;
    SameIndexes(rows, Cleaned(rows, now), tx);
  }

  lemma CleanupKeepsDrainable(rows: seq<Row>, now: int)
    requires Drainable(rows)
    ensures Drainable(Cleaned(rows, now))
    ensures LowestPending(Cleaned(rows, now)) == LowestPending(rows)
    ensures forall tx :: IndexOf(Cleaned(rows, now), tx) == IndexOf(rows, tx)
  {
    var rows' := Cleaned(rows, now);
    forall i | 0 <= i < |rows|
      ensures rows'[i].txId == rows[i].txId && rows'[i].baseTxId == rows[i].baseTxId
      ensures rows'[i].status.RollbackPending? <==> rows[i].status.RollbackPending?
    {
      CleanupSpares(rows, now, i);
    }
    forall tx
      ensures IndexOf(rows', tx) == IndexOf(rows, tx)
    {
      CleanupKeepsIndex(rows, now, tx);
    }
    hide Cleaned;
    SameLowest(rows, rows');
  }

  lemma SameLowest(rows: seq<Row>, rows': seq<Row>)
    requires |rows'| == |rows|
    requires forall i :: 0 <= i < |rows| ==> (rows'[i].status.RollbackPending? <==> rows[i].status.RollbackPending?)
    ensures LowestPending(rows') == LowestPending(rows)
  {
  }

  /** A restart keeps the pending rows, and where the drain ends as long as some row is pending. */
  lemma RestartKeeps(s: Local, relink: Option<string>, now: int)
    requires Drainable(s.rows)
    ensures var s' := Restarted(s, relink, now);
            && Drainable(s'.rows)
            && PendingCount(s'.rows) == PendingCount(s.rows)
            && FinalRows(Cleaned(s'.rows, 0)) == FinalRows(Cleaned(s.rows, 0)) == FinalRows(s'.rows)
            && (LowestPending(s.rows).Some? ==> FinalLink(s') == FinalLink(s))
            && (LowestPending(s.rows).None? ==> LowestPending(s'.rows).None?)
  {
    CleanupKeepsDrainable(s.rows, now);
    CountAfterCleanup(s.rows, now);
    FinalOfCleaned(s.rows, now);
    if LowestPending(s.rows).Some? {
      var low := LowestPending(s.rows).value;
      CleanupSpares(s.rows, now, low);
      CleanupSpares(s.rows, now, IndexOf(s.rows, BaseString(s.rows[low])));
    }
  }

  lemma FinalOfCleaned(rows: seq<Row>, now: int)
    ensures FinalRows(Cleaned(Cleaned(rows, now), 0)) == FinalRows(Cleaned(rows, 0)) == FinalRows(Cleaned(rows, now))
  {
  }

  /** A whole pass does not change what cleanup and drain together leave. */
  lemma StepKeepsCleanedFinal(s: Local, now: int)
    requires Drainable(s.rows)
    ensures FinalRows(Cleaned(DrainStep(s, now).rows, 0)) == FinalRows(Cleaned(s.rows, 0))
  {
    var top := LatestWithStatus(s.rows, RollbackPending);
    if top.Some? {
      MarkChangesOneRow(s.rows, top.value, now);
      RolledBackWrite(s.rows[top.value], now);
    }
  }

  /** The pass marked its row. */
  predicate Marks(pass: Pass) {
    pass.Whole? || pass.at.AfterMark?
  }

  /** What the pass keeps of the final state, and how far it gets. */
  lemma PassKeeps(s: Local, pass: Pass, bootstrap: string)
    requires Drainable(s.rows)
    ensures var s' := After(s, pass, bootstrap);
            && Drainable(s'.rows)
            && FinalRows(Cleaned(s'.rows, 0)) == FinalRows(Cleaned(s.rows, 0))
            && FinalRows(s'.rows) == (if pass.Killed? then FinalRows(Cleaned(s.rows, 0)) else FinalRows(s.rows))
            && PendingCount(s'.rows)
               == (if Marks(pass) && PendingCount(s.rows) > 0 then PendingCount(s.rows) - 1 else PendingCount(s.rows))
            && FinalLink(s')
               == (if pass.Killed? && pass.container && PendingCount(s'.rows) == 0 then bootstrap else FinalLink(s))
  {
    hide FinalRows, Cleaned, UpdateWhere, PendingCount, Drainable;
    CountZero(s.rows);
    StepKeepsFinal(s, pass.now);
    StepKeepsCleanedFinal(s, pass.now);
    if LatestWithStatus(s.rows, RollbackPending).Some? {
      StepCounts(s, pass.now);
    }
    if pass.Killed? {
      var cut := CutOff(s, pass.at, pass.now);
      CountZero(cut.rows);
      CutKeepsLink(s, pass.at, pass.now);
      RestartKeeps(cut, if pass.container then Some(bootstrap) else None, pass.cleanedAt);
      CountZero(After(s, pass, bootstrap).rows);
    }
  }

  lemma CutKeepsLink(s: Local, at: KillPoint, now: int)
    requires Drainable(s.rows)
    ensures Drainable(CutOff(s, at, now).rows) && FinalLink(CutOff(s, at, now)) == FinalLink(s)
  {
    StepKeepsFinal(s, now);
  }

  function Passes(s: Local, passes: seq<Pass>, bootstrap: string): (r: Local)
    requires Drainable(s.rows)
    ensures Drainable(r.rows)
    decreases |passes|
  {
    if passes == [] then s
    else
      PassKeeps(s, passes[0], bootstrap);
      Passes(After(s, passes[0], bootstrap), passes[1..], bootstrap)
  }

  function Marked(passes: seq<Pass>): nat {
    if passes == [] then 0 else (if Marks(passes[0]) then 1 else 0) + Marked(passes[1..])
  }

  predicate AnyKilled(passes: seq<Pass>) {
    exists i :: 0 <= i < |passes| && passes[i].Killed?
  }

  /** The container was restarted when nothing was pending any more. */
  predicate RelinkedAtTheEnd(s: Local, passes: seq<Pass>, bootstrap: string)
    requires Drainable(s.rows)
    decreases |passes|
  {
    passes != [] &&
    (PassKeeps(s, passes[0], bootstrap);
     var s' := After(s, passes[0], bootstrap);
     (passes[0].Killed? && passes[0].container && PendingCount(s'.rows) == 0)
     || RelinkedAtTheEnd(s', passes[1..], bootstrap))
  }

  /**
   However often the drain is killed, wherever in a pass, and restarted through the startup cleanup: once as
   many rows were marked as were pending, the table is the one an undisturbed drain leaves, cleaned if there
   was a restart at all, and the link ends at the same base, unless the container was restarted after the
   last row had been marked; then it is at bootstrap.
   */
  lemma {:induction false} KilledDrainEndsTheSame(s: Local, passes: seq<Pass>, bootstrap: string)
    requires Drainable(s.rows) && Marked(passes) >= PendingCount(s.rows)
    ensures var r := Passes(s, passes, bootstrap);
            && PendingCount(r.rows) == 0
            && FinalRows(r.rows) == FinalRows(if AnyKilled(passes) then Cleaned(s.rows, 0) else s.rows)
            && r.link == if RelinkedAtTheEnd(s, passes, bootstrap) then bootstrap else FinalLink(s)
    decreases |passes|
  {
    hide FinalRows, Cleaned, PendingCount, Drainable, After;
    if passes == [] {
      CountZero(s.rows);
    } else {
      PassKeeps(s, passes[0], bootstrap);
      var s' := After(s, passes[0], bootstrap);
      KilledDrainEndsTheSame(s', passes[1..], bootstrap);
      LaterKill(passes);
    }
  }

  lemma LaterKill(passes: seq<Pass>)
    requires passes != []
    ensures AnyKilled(passes) <==> passes[0].Killed? || AnyKilled(passes[1..])
  {
    if i :| 0 <= i < |passes| && passes[i].Killed? {
      assert i > 0 ==> passes[1..][i - 1].Killed?;
    }
    if j :| 0 <= j < |passes[1..]| && passes[1..][j].Killed? {
      assert passes[j + 1].Killed?;
    }
  }

  // ------------------------------------------------------- where the drain ends

  /** The link ends at none of the rows that were rolled back. */
  lemma FinalLinkIsNoneOfThem(s: Local, i: nat)
    requires Drainable(s.rows) && i < |s.rows| && s.rows[i].status.RollbackPending?
    requires forall j, k :: 0 <= j < k < |s.rows| ==> s.rows[j].binPath != s.rows[k].binPath
    ensures FinalLink(s) != s.rows[i].binPath
  {
    var low := LowestPending(s.rows).value;
    assert low <= i;
    assert IndexOf(s.rows, BaseString(s.rows[low])) < i;
  }

  /** The drain leaves the link at an artifact that has been rolled back. */
  ghost predicate EndsRolledBack(s: Local)
    requires Drainable(s.rows)
  {
    exists i :: 0 <= i < |s.rows| && FinalLink(s) == s.rows[i].binPath && FinalRows(s.rows)[i].status.RolledBack?
  }

  /**
   A drain ends at an artifact that has been rolled back iff the base of the lowest pending row already is
   rolled back when the drain begins.
   */
  lemma DrainEndsRolledBackIff(s: Local)
    requires Drainable(s.rows) && LowestPending(s.rows).Some?
    requires forall j, k :: 0 <= j < k < |s.rows| ==> s.rows[j].binPath != s.rows[k].binPath
    ensures var low := LowestPending(s.rows).value;
            EndsRolledBack(s) <==> s.rows[IndexOf(s.rows, BaseString(s.rows[low]))].status.RolledBack?
  {
    var low := LowestPending(s.rows).value;
    var base := IndexOf(s.rows, BaseString(s.rows[low]));
    assert base < low && !s.rows[base].status.RollbackPending?;
    assert FinalRows(s.rows)[base].status == s.rows[base].status;
    if i :| 0 <= i < |s.rows| && FinalLink(s) == s.rows[i].binPath && FinalRows(s.rows)[i].status.RolledBack? {
      assert s.rows[i].binPath == s.rows[base].binPath;
      assert i == base;
    }
  }
}

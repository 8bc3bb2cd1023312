/**
 The durable inbox: the rows of the inbox table and what each statement of the worker does to them.

 Rows are never deleted, so a task is named by its position; positions are in the order of the ids.
 */
module InboxTable {
  import opened Options
  import opened Control

  // ------------------------------------------------------------------- updates

  datatype Message = Message(chatId: int, date: int, text: Option<string>)

  datatype Update = Update(id: int, message: Option<Message>)

  /** The update carries a non-empty text. */
  predicate HasText(u: Update) {
    u.message.Some? && u.message.value.text.Some? && u.message.value.text.value != ""
  }

  // ---------------------------------------------------------------------- rows

  datatype TaskStatus = Queued | InProgress | Failed | Done

  datatype Task = Task(updateId: int, chatId: int, text: string, messageDate: int,
                       status: TaskStatus, attempts: int, updatedAt: int)

  predicate Knows(rows: seq<Task>, updateId: int) {
    exists i :: 0 <= i < |rows| && rows[i].updateId == updateId
  }

  function NewTask(u: Update, now: int): Task
    requires HasText(u)
  {
    Task(u.id, u.message.value.chatId, u.message.value.text.value, u.message.value.date, Queued, 0, now)
  }

  /** INSERT OR IGNORE: update_id is unique. */
  function Enqueued(rows: seq<Task>, u: Update, now: int): seq<Task>
    requires HasText(u)
  {
    if Knows(rows, u.id) then rows else rows + [NewTask(u, now)]
  }

  /** COALESCE(MAX(update_id) + 1, 0). */
  function OffsetOf(rows: seq<Task>): int {
    if rows == [] then 0
    else
      var last := rows[|rows| - 1].updateId + 1;
      if |rows| == 1 || OffsetOf(rows[..|rows| - 1]) < last then last else OffsetOf(rows[..|rows| - 1])
  }

  predicate IsOffset(rows: seq<Task>, r: int) {
    && (rows == [] ==> r == 0)
    && (forall i :: 0 <= i < |rows| ==> rows[i].updateId < r)
    && (rows != [] ==> exists i :: 0 <= i < |rows| && rows[i].updateId + 1 == r)
  }

  lemma {:induction false} OffsetIsNextId(rows: seq<Task>)
    ensures IsOffset(rows, OffsetOf(rows))
  {
    if |rows| > 0 {
      var init := rows[..|rows| - 1];
      OffsetIsNextId(init);
      assert rows[|rows| - 1].updateId + 1 == OffsetOf(rows) || OffsetOf(rows) == OffsetOf(init);
      if init != [] {
        var i :| 0 <= i < |init| && init[i].updateId + 1 == OffsetOf(init);
        assert rows[i] == init[i];
      }
    }
  }

  // ------------------------------------------------------------------- picking

  predicate RetryReady(t: Task, now: int, maxRetries: int) {
    || t.attempts <= 0
    || (ShouldRetry(maxRetries, t.attempts) && now - t.updatedAt >= RetryBackoffSeconds(t.attempts))
  }

  /**
   The wait after the task's last attempt is over and it has an attempt left. After the 63rd attempt the
   code no longer waits, as long as the clock has not gone back.
   */
  predicate WaitIsOver(t: Task, now: int, maxRetries: int) {
    || t.attempts <= 0
    || (1 <= t.attempts <= 63 && t.attempts <= maxRetries && now >= t.updatedAt + Wait(t.attempts))
    || (t.attempts == 64 <= maxRetries && now >= t.updatedAt - 0x8000_0000_0000_0000)
    || (65 <= t.attempts <= maxRetries && now >= t.updatedAt)
  }

  lemma ReadyIff(t: Task, now: int, maxRetries: int)
    ensures RetryReady(t, now, maxRetries) <==> WaitIsOver(t, now, maxRetries)
  {
    if 1 <= t.attempts <= 63 {
      BackoffIsTheWait(t.attempts);
    } else if t.attempts >= 64 {
      BackoffBeyond(t.attempts);
    }
  }

  /** How many failed rows come before row i. */
  function FailedBefore(rows: seq<Task>, i: nat): nat
    requires i <= |rows|
  {
    if i == 0 then 0 else FailedBefore(rows, i - 1) + if rows[i - 1].status == Failed then 1 else 0
  }

  /** Row i is a failed task ready for its next attempt, among the first `limit` failed rows. */
  predicate Eligible(rows: seq<Task>, i: nat, maxRetries: int, now: int, limit: nat)
    requires i < |rows|
  {
    rows[i].status == Failed && FailedBefore(rows, i) < limit && RetryReady(rows[i], now, maxRetries)
  }

  /** Row i is a failed task whose wait is over, among the first `limit` failed rows. */
  predicate IsDue(rows: seq<Task>, i: nat, maxRetries: int, now: int, limit: nat) {
    && i < |rows| && rows[i].status == Failed && FailedBefore(rows, i) < limit
    && WaitIsOver(rows[i], now, maxRetries)
  }

  lemma DueIffEligible(rows: seq<Task>, maxRetries: int, now: int, limit: nat)
    ensures forall i :: 0 <= i < |rows| ==>
              (Eligible(rows, i, maxRetries, now, limit) <==> IsDue(rows, i, maxRetries, now, limit))
  {
    forall i | 0 <= i < |rows|
      ensures Eligible(rows, i, maxRetries, now, limit) <==> IsDue(rows, i, maxRetries, now, limit)
    {
      ReadyIff(rows[i], now, maxRetries);
    }
  }

  predicate AnyQueued(rows: seq<Task>) {
    exists i :: 0 <= i < |rows| && rows[i].status == Queued
  }

  const SCANNED := 100
  const CLAIMABLE := 200

  /** hasRunnableTasks. */
  predicate Runnable(rows: seq<Task>, maxRetries: int, now: int) {
    AnyQueued(rows) || exists i :: 0 <= i < |rows| && Eligible(rows, i, maxRetries, now, SCANNED)
  }

  /**
   What claimNextTask may pick: any queued row, since the query names no order; without one, the first
   failed row that is ready, among the first two hundred failed ones.
   */
  predicate MayPick(rows: seq<Task>, maxRetries: int, now: int, pick: Option<nat>) {
    match pick
    case None => !AnyQueued(rows) && forall i :: 0 <= i < |rows| ==> !Eligible(rows, i, maxRetries, now, CLAIMABLE)
    case Some(i) =>
      && i < |rows|
      && if AnyQueued(rows) then rows[i].status == Queued
         else Eligible(rows, i, maxRetries, now, CLAIMABLE)
              && forall j :: 0 <= j < i ==> !Eligible(rows, j, maxRetries, now, CLAIMABLE)
  }

  function Claimed(t: Task, now: int): Task {
    t.(status := InProgress, attempts := t.attempts + 1, updatedAt := now)
  }

  /** The attempts recorded for a task that is given up. */
  function SpentAttempts(maxRetries: int): int {
    if maxRetries + 1 < 1 then 1 else maxRetries + 1
  }

  /** A task seen runnable is still claimed now or later: something is always picked. */
  lemma RunnableIsPicked(rows: seq<Task>, maxRetries: int, now: int, later: int, pick: Option<nat>)
    requires Runnable(rows, maxRetries, now) && now <= later && MayPick(rows, maxRetries, later, pick)
    ensures pick.Some?
  {
    if !AnyQueued(rows) {
      var i :| 0 <= i < |rows| && Eligible(rows, i, maxRetries, now, SCANNED);
      assert Eligible(rows, i, maxRetries, later, CLAIMABLE);
    }
  }

  lemma {:induction false} FailedBeforeGrows(rows: seq<Task>, i: nat, j: nat)
    requires i <= j <= |rows|
    ensures FailedBefore(rows, i) <= FailedBefore(rows, j)
  {
    if i < j {
      FailedBeforeGrows(rows, i, j - 1);
    }
  }

  /** Whatever the table holds, claimNextTask has exactly one of its two outcomes to offer. */
  lemma SomethingMayBePicked(rows: seq<Task>, maxRetries: int, now: int) returns (pick: Option<nat>)
    ensures MayPick(rows, maxRetries, now, pick)
  {
    if i :| 0 <= i < |rows| && rows[i].status == Queued {
      return Some(i);
    }
    var i := 0;
    while i < |rows| && !Eligible(rows, i, maxRetries, now, CLAIMABLE)
      invariant 0 <= i <= |rows|
      invariant forall j :: 0 <= j < i ==> !Eligible(rows, j, maxRetries, now, CLAIMABLE)
    {
      i := i + 1;
    }
    pick := if i < |rows| then Some(i) else None;
  }

  // ----------------------------------------------------------------- the table

  class Inbox {
    var rows: seq<Task>

    constructor ()
      ensures rows == []
    {
      rows := [];
    }

    method EnqueueMessage(u: Update, now: int) returns (inserted: bool)
      requires HasText(u)
      modifies this
      ensures rows == Enqueued(old(rows), u, now)
      ensures inserted <==> forall j :: 0 <= j < |old(rows)| ==> old(rows)[j].updateId != u.id
      ensures rows == old(rows) + if !inserted then [] else
                                    [Task(u.id, u.message.value.chatId, u.message.value.text.value,
                                          u.message.value.date, Queued, 0, now)]
    {
      for i := 0 to |rows|
        invariant rows == old(rows)
        invariant forall j :: 0 <= j < i ==> rows[j].updateId != u.id
      {
        if rows[i].updateId == u.id {
          return false;
        }
      }
      rows := rows + [NewTask(u, now)];
      return true;
    }

    method DeriveOffset() returns (offset: int)
      ensures IsOffset(rows, offset) && offset == OffsetOf(rows)
    {
      offset := 0;
      for i := 0 to |rows|
        invariant offset == OffsetOf(rows[..i])
      {
        assert rows[..i + 1][..i] == rows[..i];
        if i == 0 || rows[i].updateId + 1 > offset {
          offset := rows[i].updateId + 1;
        }
      }
      assert rows[..|rows|] == rows;
      OffsetIsNextId(rows);
    }

    method HasRunnableTasks(maxRetries: int, now: int) returns (r: bool)
      ensures r <==> Runnable(rows, maxRetries, now)
      ensures r <==> || (exists i :: 0 <= i < |rows| && rows[i].status == Queued)
                     || exists i :: IsDue(rows, i, maxRetries, now, 100)
    {
      DueIffEligible(rows, maxRetries, now, 100);
      hide IsDue;
      for i := 0 to |rows|
        invariant forall j :: 0 <= j < i ==> rows[j].status != Queued
      {
        if rows[i].status == Queued {
          return true;
        }
      }
      var i, seen := 0, 0;
      while i < |rows| && seen < SCANNED
        invariant 0 <= i <= |rows| && seen == FailedBefore(rows, i)
        invariant forall j :: 0 <= j < i ==> !Eligible(rows, j, maxRetries, now, SCANNED)
      {
        if rows[i].status == Failed {
          if RetryReady(rows[i], now, maxRetries) {
            assert Eligible(rows, i, maxRetries, now, SCANNED);
            return true;
          }
          seen := seen + 1;
        }
        i := i + 1;
      }
      NothingBeyond(i, maxRetries, now, SCANNED);
      return false;
    }

    lemma NothingBeyond(i: nat, maxRetries: int, now: int, limit: nat)
      requires i <= |rows| && (i < |rows| ==> FailedBefore(rows, i) >= limit)
      ensures forall j :: i <= j < |rows| ==> !Eligible(rows, j, maxRetries, now, limit)
    {
      forall j | i <= j < |rows|
        ensures !Eligible(rows, j, maxRetries, now, limit)
      {
        FailedBeforeGrows(rows, i, j);
      }
    }

    /**
     One transaction. `choice` is the queued row the database happens to return; `now` is read from the
     clock before the update and `stamp` by the update itself.
     */
    method ClaimNextTask(maxRetries: int, choice: nat, now: int, stamp: int) returns (pick: Option<nat>)
      requires AnyQueued(rows) ==> choice < |rows| && rows[choice].status == Queued
      modifies this
      ensures MayPick(old(rows), maxRetries, now, pick)
      ensures pick.None? ==> rows == old(rows)
      ensures pick.Some? ==> rows == old(rows)[pick.value := Claimed(old(rows)[pick.value], stamp)]
      ensures if exists i :: 0 <= i < |old(rows)| && old(rows)[i].status == Queued
              then pick.Some? && old(rows)[pick.value].status == Queued
              else if exists i :: IsDue(old(rows), i, maxRetries, now, 200)
              then pick.Some? && IsDue(old(rows), pick.value, maxRetries, now, 200)
                   && forall j :: 0 <= j < pick.value ==> !IsDue(old(rows), j, maxRetries, now, 200)
              else pick.None?
      ensures pick.Some? ==>
                var t := old(rows)[pick.value];
                rows[pick.value] == t.(status := InProgress, attempts := t.attempts + 1, updatedAt := stamp)
    {
      DueIffEligible(rows, maxRetries, now, 200);
      hide IsDue;
      if AnyQueued(rows) {
        pick := Some(choice);
      } else {
        var i, seen, found := 0, 0, false;
        while i < |rows| && seen < CLAIMABLE && !found
          invariant 0 <= i <= |rows| && seen == FailedBefore(rows, i)
          invariant forall j :: 0 <= j < i ==> !Eligible(rows, j, maxRetries, now, CLAIMABLE)
          invariant found ==> i < |rows| && Eligible(rows, i, maxRetries, now, CLAIMABLE)
          decreases |rows| - i, !found
        {
          if rows[i].status == Failed && RetryReady(rows[i], now, maxRetries) {
            found := true;
          } else {
            seen := seen + if rows[i].status == Failed then 1 else 0;
            i := i + 1;
          }
        }
        if !found {
          NothingBeyond(i, maxRetries, now, CLAIMABLE);
          return None;
        }
        pick := Some(i);
      }
      rows := rows[pick.value := Claimed(rows[pick.value], stamp)];
    }

    method MarkTaskDone(i: nat, now: int)
      requires i < |rows|
      modifies this
      ensures rows == old(rows)[i := old(rows)[i].(status := Done, updatedAt := now)]
    {
      rows := rows[i := rows[i].(status := Done, updatedAt := now)];
    }

    method MarkTaskFailed(i: nat, now: int)
      requires i < |rows|
      modifies this
      ensures rows == old(rows)[i := old(rows)[i].(status := Failed, updatedAt := now)]
    {
      rows := rows[i := rows[i].(status := Failed, updatedAt := now)];
    }

    method MarkTaskExhausted(i: nat, maxRetries: int, now: int)
      requires i < |rows|
      modifies this
      ensures rows == old(rows)[i := old(rows)[i].(status := Failed, attempts := SpentAttempts(maxRetries),
                                                   updatedAt := now)]
    {
      var exhaustedAttempts := maxRetries + 1;
      if exhaustedAttempts < 1 {
        exhaustedAttempts := 1;
      }
      rows := rows[i := rows[i].(status := Failed, attempts := exhaustedAttempts, updatedAt := now)];
    }

    /** The loop over one batch of updates: the offset moves past each update before it is stored. */
    method TakeUpdates(updates: seq<Update>, offset: int, times: seq<int>) returns (next: int)
      requires |times| == |updates|
      modifies this
      ensures next == PastAll(updates, offset)
      ensures rows == AllEnqueued(old(rows), updates, times)
    {
      next := offset;
      for i := 0 to |updates|
        invariant next == if i == 0 then offset else updates[i - 1].id + 1
        invariant AllEnqueued(rows, updates[i..], times[i..]) == AllEnqueued(old(rows), updates, times)
      {
        var update := updates[i];
        assert updates[i..][1..] == updates[i + 1..] && times[i..][1..] == times[i + 1..];
        next := update.id + 1;
        if update.message.None? {
          continue;
        }
        if update.message.value.text.None? {
          continue;
        }
        if |update.message.value.text.value| == 0 {
          continue;
        }
        var inserted := EnqueueMessage(update, times[i]);
      }
    }
  }

  /** The text messages among the updates, stored one after the other, each at its own time. */
  function AllEnqueued(rows: seq<Task>, updates: seq<Update>, times: seq<int>): seq<Task>
    requires |times| == |updates|
    decreases |updates|
  {
    if updates == [] then rows
    else
      AllEnqueued(if HasText(updates[0]) then Enqueued(rows, updates[0], times[0]) else rows, updates[1..], times[1..])
  }

  function PastAll(updates: seq<Update>, offset: int): int {
    if updates == [] then offset else updates[|updates| - 1].id + 1
  }
}

/**
 Exactly-once intake: whatever the interleaving of workers and kills, the inbox is the prefix of the
 source's text messages below the offset a restart would derive, each once and in order.
 */
module InboxIntake {
  import opened Options
  import opened Control
  import opened InboxTable
  import opened Stall
  import opened InboxRuns

  /** Update ids are not negative and strictly increase along the source. */
  predicate IsFeed(feed: seq<Update>) {
    (forall i :: 0 <= i < |feed| ==> feed[i].id >= 0) && InOrder(feed)
  }

  /** The non-empty text messages of the feed with ids below `bound`, in order. */
  function Texts(feed: seq<Update>, bound: int): seq<Update> {
    if feed == [] then []
    else (if HasText(feed[0]) && feed[0].id < bound then [feed[0]] else []) + Texts(feed[1..], bound)
  }

  predicate InOrder(us: seq<Update>) {
    forall i, j :: 0 <= i < j < |us| ==> us[i].id < us[j].id
  }

  /** The row holds the update's message. */
  predicate Holds(t: Task, u: Update) {
    && HasText(u) && t.updateId == u.id
    && t.chatId == u.message.value.chatId && t.text == u.message.value.text.value
    && t.messageDate == u.message.value.date
  }

  predicate HoldAll(rows: seq<Task>, us: seq<Update>) {
    |rows| == |us| && forall i :: 0 <= i < |rows| ==> Holds(rows[i], us[i])
  }

  // ------------------------------------------------------------- the invariant

  /** Every text message of the feed with an id below `o` has its row, derived offset `d`. */
  predicate Covered(feed: seq<Update>, o: int, d: int) {
    forall i :: 0 <= i < |feed| && feed[i].id < o && HasText(feed[i]) ==> feed[i].id < d
  }

  predicate CoveredTo(feed: seq<Update>, n: nat, d: int) {
    n <= |feed| && forall i :: 0 <= i < n && HasText(feed[i]) ==> feed[i].id < d
  }

  /** The updates are the stretch of the feed that starts at position j. */
  predicate IsStretch(feed: seq<Update>, j: nat, us: seq<Update>) {
    j + |us| <= |feed| && us == feed[j..j + |us|]
  }

  ghost predicate PlaceOk(feed: seq<Update>, d: int, proc: Proc) {
    match proc
    case Gone => true
    case Batch(o, us) =>
      Covered(feed, o, d) && exists j: nat :: IsStretch(feed, j, us) && CoveredTo(feed, j, d)
    case Storing(o, u, us) =>
      && HasText(u) && o == u.id + 1
      && exists j: nat :: j < |feed| && feed[j] == u && IsStretch(feed, j + 1, us) && CoveredTo(feed, j, d)
    case _ => Covered(feed, proc.offset, d)
  }

  ghost predicate IntakeOk(feed: seq<Update>, w: World) {
    var d := OffsetOf(w.rows);
    && HoldAll(w.rows, Texts(feed, d))
    && Covered(feed, w.confirmed, d)
    && forall p :: 0 <= p < |w.procs| ==> PlaceOk(feed, d, w.procs[p])
  }

  // -------------------------------------------------------------------- lemmas

  lemma {:induction false} TextsHas(feed: seq<Update>, bound: int, u: Update)
    ensures u in Texts(feed, bound) <==> u in feed && HasText(u) && u.id < bound
  {
    if feed != [] {
      TextsHas(feed[1..], bound, u);
      assert feed == [feed[0]] + feed[1..];
    }
  }

  lemma {:induction false} TextsNext(feed: seq<Update>, j: nat, d: int)
    requires IsFeed(feed) && j < |feed| && HasText(feed[j]) && d <= feed[j].id && CoveredTo(feed, j, d)
    ensures Texts(feed, feed[j].id + 1) == Texts(feed, d) + [feed[j]]
  {
    var rest := feed[1..];
    if j > 0 {
      TextsNext(rest, j - 1, d);
    } else {
      TextsNone(rest, feed[0].id + 1);
      TextsNone(rest, d);
    }
  }

  lemma {:induction false} TextsNone(feed: seq<Update>, bound: int)
    requires forall i :: 0 <= i < |feed| ==> feed[i].id >= bound
    ensures Texts(feed, bound) == []
  {
    if feed != [] {
      TextsNone(feed[1..], bound);
    }
  }

  lemma {:induction false} TextsAscend(feed: seq<Update>, bound: int)
    requires IsFeed(feed)
    ensures InOrder(Texts(feed, bound))
  {
    if feed != [] {
      TextsAscend(feed[1..], bound);
      var us := Texts(feed[1..], bound);
      forall j | 0 <= j < |us|
        ensures feed[0].id < us[j].id
      {
        TextsHas(feed[1..], bound, us[j]);
      }
    }
  }

  lemma {:induction false} PolledIsStretch(feed: seq<Update>, from: int, count: nat) returns (j: nat)
    requires IsFeed(feed)
    ensures IsStretch(feed, j, Polled(feed, from, count))
    ensures forall i :: 0 <= i < j ==> feed[i].id < from
  {
    if feed == [] || count == 0 {
      j := 0;
    } else if feed[0].id < from {
      var k := PolledIsStretch(feed[1..], from, count);
      j := k + 1;
    } else {
      j := 0;
      PolledIsHead(feed, from, count);
    }
  }

  lemma {:induction false} PolledIsHead(feed: seq<Update>, from: int, count: nat)
    requires IsFeed(feed) && (feed == [] || feed[0].id >= from)
    ensures var us := Polled(feed, from, count); |us| <= |feed| && us == feed[..|us|]
  {
    if feed != [] && count > 0 {
      PolledIsHead(feed[1..], from, count - 1);
    }
  }

  lemma NoLaterThan(feed: seq<Update>, j: nat)
    requires IsFeed(feed) && j < |feed|
    ensures forall i :: 0 <= i < |feed| && feed[i].id <= feed[j].id ==> i <= j
  {
  }

  lemma PlaceStays(feed: seq<Update>, d: int, e: int, proc: Proc)
    requires d <= e && PlaceOk(feed, d, proc)
    ensures PlaceOk(feed, e, proc)
  {
    match proc {
      case Batch(o, us) =>
        var j: nat :| IsStretch(feed, j, us) && CoveredTo(feed, j, d);
        assert CoveredTo(feed, j, e);
      case Storing(o, u, us) =>
        var j: nat :| j < |feed| && feed[j] == u && IsStretch(feed, j + 1, us) && CoveredTo(feed, j, d);
        assert CoveredTo(feed, j, e);
      case _ =>
    }
  }

  /** Rows keep what they hold; only storing a message adds one. */
  lemma {:induction false} OffsetAppend(rows: seq<Task>, t: Task)
    requires t.updateId >= OffsetOf(rows)
    ensures OffsetOf(rows + [t]) == t.updateId + 1
  {
    assert (rows + [t])[..|rows|] == rows;
  }

  predicate SameIds(a: seq<Task>, b: seq<Task>) {
    |a| == |b| && forall i :: 0 <= i < |a| ==> a[i].updateId == b[i].updateId
  }

  lemma {:induction false} SameOffset(a: seq<Task>, b: seq<Task>)
    requires SameIds(a, b)
    ensures OffsetOf(a) == OffsetOf(b)
  {
    if a != [] {
      SameOffset(a[..|a| - 1], b[..|b| - 1]);
    }
  }

  lemma StoreKeeps(feed: seq<Update>, rows: seq<Task>, j: nat, now: int)
    requires IsFeed(feed) && HoldAll(rows, Texts(feed, OffsetOf(rows)))
    requires j < |feed| && HasText(feed[j]) && CoveredTo(feed, j, OffsetOf(rows))
    ensures var next := Enqueued(rows, feed[j], now);
            && HoldAll(next, Texts(feed, OffsetOf(next)))
            && OffsetOf(rows) <= OffsetOf(next)
            && feed[j].id < OffsetOf(next)
  {
    hide Texts, OffsetOf, CoveredTo, IsFeed, HoldAll;
    if Knows(rows, feed[j].id) {
      OffsetIsNextId(rows);
    } else {
      assert OffsetOf(rows) <= feed[j].id by {
        if feed[j].id < OffsetOf(rows) {
          StoredIsKnown(feed, rows, feed[j]);
        }
      }
      StoringTheNext(feed, rows, j, now);
    }
  }

  lemma StoringTheNext(feed: seq<Update>, rows: seq<Task>, j: nat, now: int)
    requires IsFeed(feed) && HoldAll(rows, Texts(feed, OffsetOf(rows)))
    requires j < |feed| && HasText(feed[j]) && CoveredTo(feed, j, OffsetOf(rows)) && OffsetOf(rows) <= feed[j].id
    ensures var next := rows + [NewTask(feed[j], now)];
            HoldAll(next, Texts(feed, OffsetOf(next))) && OffsetOf(next) == feed[j].id + 1
  {
    TextsNext(feed, j, OffsetOf(rows));
    OffsetAppend(rows, NewTask(feed[j], now));
    hide Texts, OffsetOf, CoveredTo, IsFeed;
  }

  lemma StoredIsKnown(feed: seq<Update>, rows: seq<Task>, u: Update)
    requires HoldAll(rows, Texts(feed, OffsetOf(rows))) && u in feed && HasText(u) && u.id < OffsetOf(rows)
    ensures Knows(rows, u.id)
  {
    var us := Texts(feed, OffsetOf(rows));
    TextsHas(feed, OffsetOf(rows), u);
    var i :| 0 <= i < |us| && us[i] == u;
    assert Holds(rows[i], u);
  }

  /** The row holds the same message. */
  predicate SameMessage(a: Task, b: Task) {
    a.updateId == b.updateId && a.chatId == b.chatId && a.text == b.text && a.messageDate == b.messageDate
  }

  /** The worker moved without touching its updates or its offset, or is gone. */
  predicate Onlooker(before: Proc, after: Proc) {
    || after == before
    || after == Gone
    || (!after.Batch? && !after.Storing? && !before.Batch? && !before.Storing? && !before.Gone?
        && after.offset == before.offset)
  }

  /** Nothing that intake is about has changed. */
  predicate Quiet(w: World, v: World) {
    && v.confirmed == w.confirmed
    && |v.rows| == |w.rows| && (forall i :: 0 <= i < |w.rows| ==> SameMessage(w.rows[i], v.rows[i]))
    && |v.procs| == |w.procs| && forall p :: 0 <= p < |w.procs| ==> Onlooker(w.procs[p], v.procs[p])
  }

  lemma OthersAreQuiet(s: Setup, w: World, a: Action)
    requires !a.Start? && !a.Poll? && !a.Take? && !a.Store?
    ensures Quiet(w, Step(s, w, a))
  {
    hide *;
    if a.ClaimNext? || a.Check? {
      ClaimAndCheckAreQuiet(s, w, a);
    } else {
      MarksAreQuiet(s, w, a);
    }
  }

  lemma ClaimAndCheckAreQuiet(s: Setup, w: World, a: Action)
    requires a.ClaimNext? || a.Check?
    ensures Quiet(w, Step(s, w, a))
  {
    hide Eligible, AnyQueued, Stalled, OwnFps, Window, AnyFiling, ShouldRetry;
  }

  lemma MarksAreQuiet(s: Setup, w: World, a: Action)
    requires a.Kill? || a.Finish? || a.FailDirect? || a.Fail? || a.File? || a.Exhaust?
    ensures Quiet(w, Step(s, w, a))
  {
    hide Step, Quiet;
    if a.Kill? || a.File? {
      EndsAreQuiet(s, w, a);
    } else {
      RowMarksAreQuiet(s, w, a);
    }
  }

  lemma EndsAreQuiet(s: Setup, w: World, a: Action)
    requires a.Kill? || a.File?
    ensures Quiet(w, Step(s, w, a))
  {
  }

  lemma RowMarksAreQuiet(s: Setup, w: World, a: Action)
    requires a.Finish? || a.FailDirect? || a.Fail? || a.Exhaust?
    ensures Quiet(w, Step(s, w, a))
  {
  }

  lemma QuietKeeps(feed: seq<Update>, w: World, v: World)
    requires IntakeOk(feed, w) && Quiet(w, v)
    ensures IntakeOk(feed, v)
  {
    hide Texts;
    SameOffset(w.rows, v.rows);
    var us := Texts(feed, OffsetOf(w.rows));
    forall i | 0 <= i < |us|
      ensures Holds(v.rows[i], us[i])
    {
      assert Holds(w.rows[i], us[i]) && SameMessage(w.rows[i], v.rows[i]);
    }
  }

  lemma PollKeeps(s: Setup, w: World, p: nat, from: int, count: nat)
    requires IsFeed(s.feed) && IntakeOk(s.feed, w) && p < |w.procs|
    ensures IntakeOk(s.feed, Move(s, w, Poll(p, from, count)))
  {
    var proc, d := w.procs[p], OffsetOf(w.rows);
    if proc.Head? && (from == proc.offset || proc.offset <= from <= w.confirmed) {
      var j := PolledIsStretch(s.feed, from, count);
      assert CoveredTo(s.feed, j, d);
      assert PlaceOk(s.feed, d, Batch(proc.offset, Polled(s.feed, from, count)));
    }
  }

  lemma TakeKeeps(s: Setup, w: World, p: nat)
    requires IsFeed(s.feed) && IntakeOk(s.feed, w) && p < |w.procs|
    ensures IntakeOk(s.feed, Move(s, w, Take(p)))
  {
    var proc, d, feed := w.procs[p], OffsetOf(w.rows), s.feed;
    if proc.Batch? && proc.updates != [] {
      TakenPlace(feed, d, proc);
      hide IsFeed, OffsetOf, Texts, HoldAll, HasText, IsStretch, CoveredTo, Covered, PlaceOk;
      forall q | 0 <= q < |w.procs|
        ensures PlaceOk(feed, d, w.procs[q])
      {
      }
    }
  }

  /** A worker that has taken the next update of its batch stands where it should. */
  lemma TakenPlace(feed: seq<Update>, d: int, proc: Proc)
    requires IsFeed(feed) && proc.Batch? && proc.updates != [] && PlaceOk(feed, d, proc)
    ensures var u := proc.updates[0];
            PlaceOk(feed, d, if HasText(u) then Storing(u.id + 1, u, proc.updates[1..])
                             else Batch(u.id + 1, proc.updates[1..]))
  {
    var us, u := proc.updates, proc.updates[0];
    var j: nat :| IsStretch(feed, j, us) && CoveredTo(feed, j, d);
    assert feed[j] == u && IsStretch(feed, j + 1, us[1..]);
    if !HasText(u) {
      assert CoveredTo(feed, j + 1, d);
      NoLaterThan(feed, j);
    }
  }

  lemma StoreStepKeeps(s: Setup, w: World, p: nat, now: int)
    requires IsFeed(s.feed) && IntakeOk(s.feed, w) && p < |w.procs|
    ensures IntakeOk(s.feed, Move(s, w, Store(p, now)))
  {
    hide OffsetOf, Texts, HoldAll, IsFeed, Enqueued, IntakeOk, Knows, Covered;
    var proc, d, feed := w.procs[p], OffsetOf(w.rows), s.feed;
    if proc.Storing? && HasText(proc.update) && now >= w.clock {
      var us := proc.updates;
      WhereItStands(feed, w, p);
      var j: nat :| j < |feed| && feed[j] == proc.update && IsStretch(feed, j + 1, us) && CoveredTo(feed, j, d);
      StoringKeeps(feed, w, p, j, us, now);
    }
  }

  lemma WhereItStands(feed: seq<Update>, w: World, p: nat)
    requires IntakeOk(feed, w) && p < |w.procs| && w.procs[p].Storing?
    ensures w.procs[p].offset == w.procs[p].update.id + 1
    ensures exists j: nat ::
      && j < |feed| && feed[j] == w.procs[p].update
      && IsStretch(feed, j + 1, w.procs[p].updates) && CoveredTo(feed, j, OffsetOf(w.rows))
  {
    assert PlaceOk(feed, OffsetOf(w.rows), w.procs[p]);
  }

  lemma StoringKeeps(feed: seq<Update>, w: World, p: nat, j: nat, us: seq<Update>, now: int)
    requires IsFeed(feed) && IntakeOk(feed, w) && p < |w.procs| && j < |feed| && HasText(feed[j])
    requires IsStretch(feed, j + 1, us) && CoveredTo(feed, j, OffsetOf(w.rows))
    ensures IntakeOk(feed, At(w, p, Batch(feed[j].id + 1, us)).(rows := Enqueued(w.rows, feed[j], now), clock := now))
  {
    var rows := Enqueued(w.rows, feed[j], now);
    var d, e := OffsetOf(w.rows), OffsetOf(rows);
    StoreKeeps(feed, w.rows, j, now);
    StoredPlace(feed, d, e, j, us);
    hide OffsetOf, Texts, HoldAll, IsFeed, Enqueued, IsStretch, CoveredTo, PlaceOk;
    forall q | 0 <= q < |w.procs|
      ensures PlaceOk(feed, e, w.procs[q := w.procs[q]][q])
    {
      PlaceStays(feed, d, e, w.procs[q]);
    }
  }

  /** With the message at position j stored, its worker is ready for the next update. */
  lemma StoredPlace(feed: seq<Update>, d: int, e: int, j: nat, us: seq<Update>)
    requires IsFeed(feed) && d <= e && j < |feed| && feed[j].id < e
    requires IsStretch(feed, j + 1, us) && CoveredTo(feed, j, d)
    ensures PlaceOk(feed, e, Batch(feed[j].id + 1, us))
  {
    assert CoveredTo(feed, j + 1, e);
    NoLaterThan(feed, j);
  }

  lemma StartKeeps(s: Setup, w: World)
    requires IntakeOk(s.feed, w)
    ensures IntakeOk(s.feed, Step(s, w, Start))
  {
  }

  lemma StepKeepsIntake(s: Setup, w: World, a: Action)
    requires IsFeed(s.feed) && IntakeOk(s.feed, w)
    ensures IntakeOk(s.feed, Step(s, w, a))
  {
    if a.Start? {
      StartKeeps(s, w);
    } else if a.p < |w.procs| {
      match a {
        case Poll(p, from, count) => PollKeeps(s, w, p, from, count);
        case Take(p) => TakeKeeps(s, w, p);
        case Store(p, now) => StoreStepKeeps(s, w, p, now);
        case _ =>
          OthersAreQuiet(s, w, a);
          QuietKeeps(s.feed, w, Step(s, w, a));
      }
    }
  }

  lemma {:induction false} RunKeepsIntake(s: Setup, w: World, acts: seq<Action>)
    requires IsFeed(s.feed) && IntakeOk(s.feed, w)
    ensures IntakeOk(s.feed, Run(s, w, acts))
    decreases |acts|
  {
    if acts != [] {
      StepKeepsIntake(s, w, acts[0]);
      RunKeepsIntake(s, Step(s, w, acts[0]), acts[1..]);
    }
  }

  lemma NothingStoredYet(s: Setup)
    requires IsFeed(s.feed)
    ensures IntakeOk(s.feed, EMPTY)
  {
    TextsNone(s.feed, 0);
    assert OffsetOf(EMPTY.rows) == 0 && Texts(s.feed, 0) == [];
    assert Covered(s.feed, 0, 0);
    assert HoldAll(EMPTY.rows, []);
  }

  // --------------------------------------------------------------- the theorems

  /**
   After any run from an empty inbox the rows are exactly the source's text messages below the derived
   offset, one row each, in order.
   */
  lemma InboxIsThePrefixOfTheTexts(s: Setup, acts: seq<Action>)
    requires IsFeed(s.feed)
    ensures var w := Run(s, EMPTY, acts);
            && HoldAll(w.rows, Texts(s.feed, OffsetOf(w.rows)))
            && forall i, j :: 0 <= i < j < |w.rows| ==> w.rows[i].updateId < w.rows[j].updateId
  {
    NothingStoredYet(s);
    RunKeepsIntake(s, EMPTY, acts);
    var w := Run(s, EMPTY, acts);
    TextsAscend(s.feed, OffsetOf(w.rows));
    HeldInOrder(w.rows, Texts(s.feed, OffsetOf(w.rows)));
  }

  lemma HeldInOrder(rows: seq<Task>, us: seq<Update>)
    requires HoldAll(rows, us) && InOrder(us)
    ensures forall i, j :: 0 <= i < j < |rows| ==> rows[i].updateId < rows[j].updateId
  {
    assert forall i :: 0 <= i < |rows| ==> Holds(rows[i], us[i]);
  }

  /**
   A worker has passed no text message that is not stored, but for the one it holds in its hands: below
   its offset and from the derived offset on there is none. So a restart, which polls from the derived
   offset, loses nothing and stores nothing twice.
   */
  lemma RestartLosesNothing(s: Setup, acts: seq<Action>, p: nat, i: nat)
    requires IsFeed(s.feed) && i < |s.feed| && HasText(s.feed[i])
    requires var w := Run(s, EMPTY, acts);
             && p < |w.procs| && !w.procs[p].Gone?
             && OffsetOf(w.rows) <= s.feed[i].id < w.procs[p].offset
    ensures var w := Run(s, EMPTY, acts); w.procs[p].Storing? && w.procs[p].update == s.feed[i]
  {
    NothingStoredYet(s);
    RunKeepsIntake(s, EMPTY, acts);
    var w := Run(s, EMPTY, acts);
    var proc := w.procs[p];
    assert PlaceOk(s.feed, OffsetOf(w.rows), proc);
    if proc.Storing? {
      var d := OffsetOf(w.rows);
      var j: nat :| j < |s.feed| && s.feed[j] == proc.update && IsStretch(s.feed, j + 1, proc.updates)
                    && CoveredTo(s.feed, j, d);
      NoLaterThan(s.feed, j);
    }
  }

  /** Every text message a worker has passed, but for the one in its hands, has exactly one row. */
  lemma PassedTextsAreStored(s: Setup, acts: seq<Action>, p: nat, u: Update) returns (i: nat)
    requires IsFeed(s.feed) && u in s.feed && HasText(u)
    requires var w := Run(s, EMPTY, acts);
             && p < |w.procs| && !w.procs[p].Gone? && u.id < w.procs[p].offset
             && !(w.procs[p].Storing? && w.procs[p].update == u)
    ensures var rows := Run(s, EMPTY, acts).rows;
            && i < |rows| && Holds(rows[i], u)
            && forall j :: 0 <= j < |rows| && rows[j].updateId == u.id ==> j == i
  {
    var w := Run(s, EMPTY, acts);
    var k :| 0 <= k < |s.feed| && s.feed[k] == u;
    if OffsetOf(w.rows) <= u.id {
      RestartLosesNothing(s, acts, p, k);
    }
    InboxIsThePrefixOfTheTexts(s, acts);
    var us := Texts(s.feed, OffsetOf(w.rows));
    TextsHas(s.feed, OffsetOf(w.rows), u);
    i :| 0 <= i < |us| && us[i] == u;
    assert Holds(w.rows[i], u);
  }

  // ------------------------------------------------------ one worker at a time

  ghost predicate Lone(w: World) {
    && AtMostOne(w.procs)
    && forall p :: 0 <= p < |w.procs| && !w.procs[p].Gone? ==>
         OffsetOf(w.rows) <= w.procs[p].offset
         && (w.procs[p].Storing? ==> w.procs[p].offset == w.procs[p].update.id + 1)
         && (w.procs[p].Batch? ==> Onward(w.procs[p].offset, w.procs[p].updates))
         && (w.procs[p].Storing? ==> Onward(w.procs[p].offset, w.procs[p].updates))
  }

  /** The updates still to take have ids from the offset on, in increasing order. */
  predicate Onward(offset: int, us: seq<Update>) {
    (forall i :: 0 <= i < |us| ==> us[i].id >= offset) && InOrder(us)
  }

  lemma {:induction false} PolledOnward(feed: seq<Update>, from: int, count: nat)
    requires IsFeed(feed)
    ensures Onward(from, Polled(feed, from, count))
  {
    if feed != [] && count > 0 {
      if feed[0].id < from {
        PolledOnward(feed[1..], from, count);
      } else {
        PolledIsHead(feed, from, count);
      }
    }
  }

  lemma StepKeepsLone(s: Setup, w: World, a: Action)
    requires IsFeed(s.feed) && Lone(w) && (a.Start? ==> AllGone(w.procs))
    ensures Lone(Step(s, w, a))
  {
    if a.Start? {
    } else if a.Poll? {
      PolledOnward(s.feed, a.from, a.count);
    } else if a.Store? {
      StoreKeepsLone(s, w, a.p, a.now);
    } else if a.Take? {
      TakeKeepsLone(s, w, a.p);
    } else {
      OthersAreQuiet(s, w, a);
      QuietKeepsLone(w, Step(s, w, a));
    }
  }

  lemma TakeKeepsLone(s: Setup, w: World, p: nat)
    requires Lone(w)
    ensures Lone(Step(s, w, Take(p)))
  {
    hide OffsetOf, HasText;
  }

  lemma QuietKeepsLone(w: World, v: World)
    requires Lone(w) && Quiet(w, v)
    ensures Lone(v)
  {
    hide OffsetOf, Onward;
    SameOffset(v.rows, w.rows);
    forall p | 0 <= p < |v.procs|
      ensures Onlooker(w.procs[p], v.procs[p])
    {
    }
  }

  lemma StoreKeepsLone(s: Setup, w: World, p: nat, now: int)
    requires Lone(w)
    ensures Lone(Step(s, w, Store(p, now)))
  {
    if p < |w.procs| && w.procs[p].Storing? && HasText(w.procs[p].update) && now >= w.clock {
      var u := w.procs[p].update;
      if !Knows(w.rows, u.id) {
        OffsetAfter(w.rows, NewTask(u, now));
      }
    }
  }

  lemma OffsetAfter(rows: seq<Task>, t: Task)
    ensures OffsetOf(rows + [t]) <= OffsetOf(rows) || OffsetOf(rows + [t]) == t.updateId + 1
  {
    assert (rows + [t])[..|rows|] == rows;
  }

  lemma {:induction false} RunKeepsLone(s: Setup, w: World, acts: seq<Action>)
    requires IsFeed(s.feed) && Lone(w) && OneAtATime(s, w, acts)
    ensures Lone(Run(s, w, acts))
    decreases |acts|
  {
    if acts != [] {
      StepKeepsLone(s, w, acts[0]);
      RunKeepsLone(s, Step(s, w, acts[0]), acts[1..]);
    }
  }

  /** With one worker at a time the derived offset never exceeds the offset in memory. */
  lemma DerivedOffsetNeverAhead(s: Setup, acts: seq<Action>, p: nat)
    requires IsFeed(s.feed) && OneAtATime(s, EMPTY, acts)
    requires var w := Run(s, EMPTY, acts); p < |w.procs| && !w.procs[p].Gone?
    ensures var w := Run(s, EMPTY, acts); OffsetOf(w.rows) <= w.procs[p].offset
  {
    RunKeepsLone(s, EMPTY, acts);
  }

  // ------------------------------------------------------ the loop of one batch

  /** The steps of a worker that takes a batch undisturbed, each text at its own time. */
  function BatchSteps(p: nat, us: seq<Update>, times: seq<int>): seq<Action>
    requires |times| == |us|
  {
    if us == [] then [Take(p)]
    else (if HasText(us[0]) then [Take(p), Store(p, times[0])] else [Take(p)]) + BatchSteps(p, us[1..], times[1..])
  }

  /** The clock does not go back. */
  predicate Forward(clock: int, times: seq<int>) {
    (forall i :: 0 <= i < |times| ==> clock <= times[i]) && forall i, j :: 0 <= i < j < |times| ==> times[i] <= times[j]
  }

  /** The clock after the last text of the batch. */
  function ClockAfter(clock: int, us: seq<Update>, times: seq<int>): int
    requires |times| == |us|
    decreases |us|
  {
    if us == [] then clock else ClockAfter(if HasText(us[0]) then times[0] else clock, us[1..], times[1..])
  }

  lemma {:induction false} RunConcat(s: Setup, w: World, a: seq<Action>, b: seq<Action>)
    ensures Run(s, w, a + b) == Run(s, Run(s, w, a), b)
    decreases |a|
  {
    hide Step;
    if a == [] {
      assert a + b == b;
    } else {
      assert (a + b)[0] == a[0] && (a + b)[1..] == a[1..] + b;
      RunConcat(s, Step(s, w, a[0]), a[1..], b);
    }
  }

  lemma TakeAlone(s: Setup, w: World, p: nat, now: int)
    requires p < |w.procs| && w.procs[p].Batch? && w.procs[p].updates != [] && now >= w.clock
    ensures var us := w.procs[p].updates;
            Run(s, w, if HasText(us[0]) then [Take(p), Store(p, now)] else [Take(p)])
            == w.(rows := if HasText(us[0]) then Enqueued(w.rows, us[0], now) else w.rows,
                  clock := if HasText(us[0]) then now else w.clock,
                  procs := w.procs[p := Batch(us[0].id + 1, us[1..])])
  {
    hide HasText, Enqueued;
    var us := w.procs[p].updates;
    var v := Step(s, w, Take(p));
    if HasText(us[0]) {
      var x := Step(s, v, Store(p, now));
      assert x.procs == w.procs[p := Batch(us[0].id + 1, us[1..])];
      assert [Take(p), Store(p, now)][1..] == [Store(p, now)] && [Store(p, now)][1..] == [];
      assert Run(s, x, []) == x;
      assert Run(s, v, [Store(p, now)]) == x;
      assert Run(s, w, [Take(p), Store(p, now)]) == x;
    } else {
      assert [Take(p)][1..] == [];
    }
  }

  /** Run without interruption, the steps of the machine do to the inbox what the worker's loop does. */
  lemma {:induction false} BatchIsTheLoop(s: Setup, w: World, p: nat, times: seq<int>)
    requires p < |w.procs| && w.procs[p].Batch?
    requires |times| == |w.procs[p].updates| && Forward(w.clock, times)
    ensures var Batch(o, us) := w.procs[p];
            Run(s, w, BatchSteps(p, us, times))
            == w.(rows := AllEnqueued(w.rows, us, times),
                  clock := ClockAfter(w.clock, us, times),
                  procs := w.procs[p := Claiming(PastAll(us, o))])
    decreases |w.procs[p].updates|
  {
    var Batch(o, us) := w.procs[p];
    if us == [] {
      assert [Take(p)][1..] == [];
    } else {
      var now := times[0];
      var first := if HasText(us[0]) then [Take(p), Store(p, now)] else [Take(p)];
      var v := Run(s, w, first);
      TakeAlone(s, w, p, now);
      RunConcat(s, w, first, BatchSteps(p, us[1..], times[1..]));
      hide Run, Step, HasText, Enqueued, BatchSteps;
      BatchIsTheLoop(s, v, p, times[1..]);
      assert v.procs[p := Claiming(PastAll(us, o))] == w.procs[p := Claiming(PastAll(us, o))];
      assert PastAll(us[1..], us[0].id + 1) == PastAll(us, o);
    }
  }
}

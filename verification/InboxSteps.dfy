/** What one step of the worker's main loop does to a task, and what it goes back to. */
module InboxSteps {
  import opened Options
  import opened Control
  import opened InboxTable
  import opened Stall
  import opened InboxRuns
  import InboxIntake

  // ------------------------------------------------------------------ the rows

  /** The step is the claim of task i. */
  predicate Claims(s: Setup, w: World, a: Action, i: nat) {
    && a.ClaimNext? && a.p < |w.procs| && w.procs[a.p].Claiming? && a.pick == Some(i)
    && w.clock <= a.now <= a.stamp && MayPick(w.rows, s.maxRetries, a.now, Some(i))
  }

  /** The worker that moves is working on task i. */
  predicate WorksOn(w: World, a: Action, i: nat) {
    !a.Start? && a.p < |w.procs| && w.procs[a.p].Working? && w.procs[a.p].task == i
  }

  /** The step gives task i up. */
  predicate GivesUp(w: World, a: Action, i: nat) {
    a.Exhaust? && a.p < |w.procs| && w.procs[a.p].Exhausting? && w.procs[a.p].task == i && a.now >= w.clock
  }

  /** The step stores a text message that has no row yet. */
  predicate Adds(w: World, a: Action) {
    && a.Store? && a.p < |w.procs| && w.procs[a.p].Storing? && HasText(w.procs[a.p].update) && a.now >= w.clock
    && forall j :: 0 <= j < |w.rows| ==> w.rows[j].updateId != w.procs[a.p].update.id
  }

  /** The row of a task after a step: the claim, the worker's three ways to end its work, giving up, and no other. */
  lemma RowAfterStep(s: Setup, w: World, a: Action, i: nat)
    requires i < |w.rows|
    ensures i < |Step(s, w, a).rows|
    ensures var t := w.rows[i];
            Step(s, w, a).rows[i]
            == if Claims(s, w, a, i) then t.(status := InProgress, attempts := t.attempts + 1, updatedAt := a.stamp)
               else if WorksOn(w, a, i) && a.Finish? && a.now >= w.clock then t.(status := Done, updatedAt := a.now)
               else if WorksOn(w, a, i) && (a.Fail? || a.FailDirect?) && a.now >= w.clock
               then t.(status := Failed, updatedAt := a.now)
               else if GivesUp(w, a, i)
               then t.(status := Failed, updatedAt := a.now,
                       attempts := if s.maxRetries < 0 then 1 else s.maxRetries + 1)
               else t
  {
    hide Eligible, AnyQueued, AnyFiling, OwnFps, Window, Stalled, Polled, HasText, Knows;
  }

  /** A row is added exactly when a new text message is stored, and it is queued. */
  lemma RowsAfterStep(s: Setup, w: World, a: Action)
    ensures var rows := Step(s, w, a).rows;
            if Adds(w, a)
            then |rows| == |w.rows| + 1
                 && var u := w.procs[a.p].update;
                    rows[|w.rows|] == Task(u.id, u.message.value.chatId, u.message.value.text.value,
                                           u.message.value.date, Queued, 0, a.now)
            else |rows| == |w.rows|
  {
    hide Eligible, AnyQueued, AnyFiling, OwnFps, Window, Stalled, Polled;
    if a.Store? && a.p < |w.procs| && w.procs[a.p].Storing? {
      StoredOrKnown(w, w.procs[a.p].update.id);
    }
  }

  lemma StoredOrKnown(w: World, id: int)
    ensures Knows(w.rows, id) <==> !(forall j :: 0 <= j < |w.rows| ==> w.rows[j].updateId != id)
  {
  }

  // --------------------------------------------------------------- the workers

  /** The last two fingerprints of the task in the newest two hundred retry events are this one. */
  predicate ThirdTime(log: seq<Retry>, i: nat, fp: string) {
    var newest := if |log| <= 200 then log else log[|log| - 200..];
    var fps := OwnFps(newest, i);
    |fps| >= 2 && fps[|fps| - 1] == fp && fps[|fps| - 2] == fp
  }

  lemma ThirdTimeIffStalled(log: seq<Retry>, i: nat, fp: string)
    ensures Stalled(log, i, fp, NO_PROGRESS_K) <==> ThirdTime(log, i, fp)
  {
    hide OwnFps;
  }

  /** Where a worker goes that has a task in hand. */
  lemma PlaceAfterStep(s: Setup, w: World, a: Action)
    requires !a.Start? && a.p < |w.procs|
    ensures var p, q := w.procs[a.p], Step(s, w, a).procs[a.p];
            match a
            case Finish(_, now) => p.Working? && now >= w.clock ==> q == Head(p.offset)
            case FailDirect(_, now) => p.Working? && now >= w.clock ==> q == Head(p.offset)
            case Fail(_, now) => p.Working? && now >= w.clock ==> q == Failing(p.offset, p.task, p.attempts)
            case Check(_, fp) =>
              p.Failing? && fp != "" ==>
                q == if p.attempts > s.maxRetries then Head(p.offset)
                     else if ThirdTime(w.log, p.task, fp) then Exhausting(p.offset, p.task)
                     else Scheduling(p.offset, p.task, fp)
            case File(_) =>
              p.Scheduling? ==> q == Head(p.offset) && Step(s, w, a).log == w.log + [Retry(Some(p.task), p.fp)]
            case Exhaust(_, now) => p.Exhausting? && now >= w.clock && p.task < |w.rows| ==> q == Head(p.offset)
            case ClaimNext(_, Some(i), _, _) => Claims(s, w, a, i) ==> q == Working(p.offset, i, w.rows[i].attempts + 1)
            case ClaimNext(_, None, now, stamp) =>
              p.Claiming? && w.clock <= now <= stamp && MayPick(w.rows, s.maxRetries, now, None) ==> q == Head(p.offset)
            case Kill(_) => q == Gone
            case _ => true
  {
    if a.Check? && w.procs[a.p].Failing? {
      ThirdTimeIffStalled(w.log, w.procs[a.p].task, a.fp);
    }
    hide Eligible, AnyQueued, AnyFiling, OwnFps, Window, Stalled, ThirdTime, Polled, HasText, Knows, MayPick;
  }

  /** The updates from an id on, in order. */
  function From(feed: seq<Update>, from: int): seq<Update> {
    if feed == [] then [] else (if feed[0].id >= from then [feed[0]] else []) + From(feed[1..], from)
  }

  lemma {:induction false} FromAll(feed: seq<Update>, from: int)
    requires forall j :: 0 <= j < |feed| ==> feed[j].id >= from
    ensures From(feed, from) == feed
  {
    if feed != [] {
      FromAll(feed[1..], from);
    }
  }

  lemma {:induction false} PollBringsAPrefix(feed: seq<Update>, from: int, count: nat)
    requires forall j :: 0 <= j < |feed| ==> feed[j].id >= from
    ensures Polled(feed, from, count) == if count < |feed| then feed[..count] else feed
  {
    if feed != [] && count > 0 {
      var rest := feed[1..];
      PollBringsAPrefix(rest, from, count - 1);
      assert Polled(feed, from, count) == [feed[0]] + Polled(rest, from, count - 1);
      hide Polled;
      assert feed == [feed[0]] + rest;
    }
  }

  /** A poll brings the first updates from the id asked for, as many as the source chooses to send. */
  lemma {:induction false} PollBringsTheNext(feed: seq<Update>, from: int, count: nat)
    requires InboxIntake.IsFeed(feed)
    ensures Polled(feed, from, count)
            == if count < |From(feed, from)| then From(feed, from)[..count] else From(feed, from)
  {
    if feed == [] || count == 0 {
      return;
    }
    if feed[0].id < from {
      PollBringsTheNext(feed[1..], from, count);
    } else {
      hide From, Polled;
      FromAll(feed, from);
      PollBringsAPrefix(feed, from, count);
    }
  }

  /** A poll confirms everything below the offset it is made with, and never takes that back. */
  lemma PollStep(s: Setup, w: World, p: nat, from: int, count: nat)
    requires p < |w.procs| && w.procs[p].Head?
    ensures var v, offset := Step(s, w, Poll(p, from, count)), w.procs[p].offset;
            if from == offset || offset <= from <= w.confirmed
            then v.procs[p] == Batch(offset, Polled(s.feed, from, count))
                 && v.confirmed >= w.confirmed && v.confirmed >= offset
                 && (v.confirmed == w.confirmed || v.confirmed == offset)
            else v == w
  {
    hide Polled;
  }

  // ------------------------------------------------------------------- a cause

  /** The worker finds that the task has failed for the third time in the same state, with attempts left. */
  predicate FindsStalled(s: Setup, w: World, a: Action, p: nat, i: nat) {
    && a.Check? && a.p == p < |w.procs| && w.procs[p].Failing? && w.procs[p].task == i
    && w.procs[p].attempts <= s.maxRetries && a.fp != "" && ThirdTime(w.log, i, a.fp)
  }

  lemma ExhaustsNow(s: Setup, w: World, a: Action, p: nat, i: nat)
    requires p < |Step(s, w, a).procs| && Step(s, w, a).procs[p].Exhausting? && Step(s, w, a).procs[p].task == i
    requires !(p < |w.procs| && w.procs[p].Exhausting? && w.procs[p].task == i)
    ensures FindsStalled(s, w, a, p, i)
  {
    if a.Check? && a.p < |w.procs| && w.procs[a.p].Failing? {
      ThirdTimeIffStalled(w.log, w.procs[a.p].task, a.fp);
    }
    hide Eligible, AnyQueued, AnyFiling, OwnFps, Window, Stalled, ThirdTime, Polled, HasText, Knows, MayPick;
  }

  lemma RunSnoc(s: Setup, w: World, acts: seq<Action>)
    requires acts != []
    ensures Run(s, w, acts) == Step(s, Run(s, w, acts[..|acts| - 1]), acts[|acts| - 1])
  {
    hide Step;
    var init, last := acts[..|acts| - 1], acts[|acts| - 1];
    assert acts == init + [last];
    InboxIntake.RunConcat(s, w, init, [last]);
    assert [last][1..] == [];
  }

  /** In every run a worker that is about to give a task up has found it stalled. */
  lemma {:induction false} GivingUpHasCause(s: Setup, acts: seq<Action>, p: nat, i: nat) returns (k: nat)
    requires var w := Run(s, EMPTY, acts); p < |w.procs| && w.procs[p].Exhausting? && w.procs[p].task == i
    ensures k < |acts| && FindsStalled(s, Run(s, EMPTY, acts[..k]), acts[k], p, i)
  {
    hide Step, FindsStalled;
    if acts == [] {
      NobodyAtFirst(s);
    } else {
      RunSnoc(s, EMPTY, acts);
      var init, a := acts[..|acts| - 1], acts[|acts| - 1];
      var w := Run(s, EMPTY, init);
      if p < |w.procs| && w.procs[p].Exhausting? && w.procs[p].task == i {
        k := GivingUpHasCause(s, init, p, i);
        assert init[..k] == acts[..k];
      } else {
        ExhaustsNow(s, w, a, p, i);
        k := |acts| - 1;
      }
    }
  }

  lemma NobodyAtFirst(s: Setup)
    ensures |Run(s, EMPTY, []).procs| == 0
  {
  }
}

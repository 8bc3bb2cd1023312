/** cmd/worker/main.go: detecting a task that fails again and again in the same state. */
module Stall {
  import opened Options
  import opened Control

  /**
   One retry.scheduled event. `task` is None when the payload carries no readable task id, and `fp` is
   empty when it carries no fingerprint.
   */
  datatype Retry = Retry(task: Option<int>, fp: string)

  const WINDOW := 200

  predicate Own(e: Retry, task: int) {
    e.task == Some(task) && e.fp != ""
  }

  /** The fingerprints recorded for a task, oldest first. */
  function OwnFps(log: seq<Retry>, task: int): seq<string> {
    if log == [] then []
    else (if Own(log[0], task) then [log[0].fp] else []) + OwnFps(log[1..], task)
  }

  /** The retry events that are looked at: the newest two hundred. */
  function Window(log: seq<Retry>): (r: seq<Retry>)
    ensures |r| <= WINDOW
  {
    if |log| <= WINDOW then log else log[|log| - WINDOW..]
  }

  function LastN(fps: seq<string>, n: nat): seq<string> {
    if |fps| <= n then fps else fps[|fps| - n..]
  }

  lemma {:induction false} OwnFpsConcat(a: seq<Retry>, b: seq<Retry>, task: int)
    ensures OwnFps(a + b, task) == OwnFps(a, task) + OwnFps(b, task)
  {
    if a == [] {
      assert a + b == b;
    } else {
      assert (a + b)[1..] == a[1..] + b;
      OwnFpsConcat(a[1..], b, task);
    }
  }

  lemma OwnStep(log: seq<Retry>, k: nat, task: int)
    requires k < |log|
    ensures OwnFps(log[k..], task) == (if Own(log[k], task) then [log[k].fp] else []) + OwnFps(log[k + 1..], task)
  {
    assert log[k..][1..] == log[k + 1..];
  }

  lemma NothingOwn(log: seq<Retry>, task: int)
    ensures OwnFps(log[|log|..], task) == []
  {
  }

  /** Scans the events from the newest back and puts the task's fingerprints in order of time. */
  method RecentFingerprints(log: seq<Retry>, task: int, limit: int) returns (result: seq<string>)
    ensures result == if limit <= 0 then [] else LastN(OwnFps(Window(log), task), limit)
    ensures var own := OwnFps(if |log| > 200 then log[|log| - 200..] else log, task);
            result == if limit <= 0 then [] else if limit < |own| then own[|own| - limit..] else own
  {
    if limit <= 0 {
      return [];
    }
    hide OwnFps, LastN, Window;
    NothingOwn(log, task);
    result := [];
    var i := |log|;
    while i > 0 && |log| - i < WINDOW && |result| < limit
      invariant 0 <= i <= |log| && |log| - i <= WINDOW
      invariant |result| <= limit
      invariant result == OwnFps(log[i..], task)
    {
      i := i - 1;
      var e := log[i];
      OwnStep(log, i, task);
      if !Own(e, task) {
        continue;
      }
      result := [e.fp] + result;
    }
    ScanEnds(log, i, task, limit);
  }

  /** Stopping at the window's end or with enough fingerprints leaves the last ones of the window. */
  lemma ScanEnds(log: seq<Retry>, i: nat, task: int, limit: nat)
    requires i <= |log| && |log| - i <= WINDOW && |OwnFps(log[i..], task)| <= limit
    requires i == 0 || |log| - i == WINDOW || |OwnFps(log[i..], task)| == limit
    ensures OwnFps(log[i..], task) == LastN(OwnFps(Window(log), task), limit)
  {
    var start := |log| - |Window(log)|;
    assert Window(log)[i - start..] == log[i..];
    LastOwn(Window(log), i - start, task);
  }

  /** The fingerprints of the newest events are the last of the fingerprints. */
  lemma LastOwn(log: seq<Retry>, from: nat, task: int)
    requires from <= |log|
    ensures var all, newest := OwnFps(log, task), OwnFps(log[from..], task);
            |newest| <= |all| && newest == LastN(all, |newest|)
    ensures from == 0 ==> OwnFps(log[from..], task) == OwnFps(log, task)
  {
    assert log == log[..from] + log[from..];
    OwnFpsConcat(log[..from], log[from..], task);
  }

  /** The last k-1 fingerprints of the task in the window exist and all equal the current one. */
  predicate Stalled(log: seq<Retry>, task: int, current: string, k: int) {
    var fps := OwnFps(Window(log), task);
    && k > 1
    && |fps| >= k - 1
    && forall i :: |fps| - (k - 1) <= i < |fps| ==> fps[i] == current
  }

  method ProgressStalled(log: seq<Retry>, task: int, current: string, k: int) returns (r: bool)
    ensures r <==> Stalled(log, task, current, k)
  {
    if k <= 1 {
      return false;
    }
    var prev := RecentFingerprints(log, task, k - 1);
    var fps := prev + [current];
    r := NoProgress(fps, k);
    ghost var own := OwnFps(Window(log), task);
    if |own| >= k - 1 {
      assert |fps| == k;
      assert forall i :: 0 <= i < k - 1 ==> fps[i] == own[|own| - (k - 1) + i];
      assert (forall i :: 0 <= i < k ==> fps[i] == current) ==> forall i :: |own| - (k - 1) <= i < |own| ==>
        own[i] == fps[i - (|own| - (k - 1))];
    }
  }
}

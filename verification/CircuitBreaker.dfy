/**
 The circuit breaker of internal/control and the way the worker's main loop drives it: its counters
 against the history of calls, and how far apart its openings are.
 */
module CircuitBreaker {
  datatype State = Closed | Open | HalfOpen

  /** The value of a breaker; times and durations in nanoseconds. */
  datatype View = View(
    threshold: int, cooldown: int,
    state: State, failures: map<string, nat>, openedAt: int, openedClass: string)

  const DEFAULT_THRESHOLD: int := 5
  const DEFAULT_COOLDOWN: int := 30_000_000_000
  const SOURCE_CLASS: string := "command_source_api"

  function NewView(threshold: int, cooldown: int): View {
    View(if threshold <= 0 then DEFAULT_THRESHOLD else threshold,
         if cooldown <= 0 then DEFAULT_COOLDOWN else cooldown,
         Closed, map[], 0, "")
  }

  /** The blank class is counted as "unknown". */
  function Class(errClass: string): string {
    if errClass == "" then "unknown" else errClass
  }

  function Count(v: View, errClass: string): nat {
    if errClass in v.failures then v.failures[errClass] else 0
  }

  predicate Allows(v: View, now: int) {
    !v.state.Open? || now - v.openedAt >= v.cooldown
  }

  function AfterAllow(v: View, now: int): View {
    if v.state.Open? && now - v.openedAt >= v.cooldown then v.(state := HalfOpen) else v
  }

  function AfterSuccess(v: View): View {
    v.(state := Closed, openedClass := "", failures := map[])
  }

  function AfterFailure(v: View, errClass: string, now: int): View {
    var c := Class(errClass);
    if v.state.HalfOpen? then v.(state := Open, openedAt := now, openedClass := c)
    else
      var counted := v.(failures := v.failures[c := Count(v, c) + 1]);
      if Count(counted, c) >= v.threshold then counted.(state := Open, openedAt := now, openedClass := c) else counted
  }

  class Breaker {
    const threshold: int
    const cooldown: int
    var state: State
    var failures: map<string, nat>
    var openedAt: int
    var openedClass: string

    constructor (threshold: int, cooldown: int)
      ensures Value() == NewView(threshold, cooldown)
    {
      this.threshold := if threshold <= 0 then DEFAULT_THRESHOLD else threshold;
      this.cooldown := if cooldown <= 0 then DEFAULT_COOLDOWN else cooldown;
      state, failures, openedAt, openedClass := Closed, map[], 0, "";
    }

    function Value(): View
      reads this
    {
      View(threshold, cooldown, state, failures, openedAt, openedClass)
    }

    method Allow(now: int) returns (ok: bool)
      modifies this`state
      ensures ok == Allows(old(Value()), now) && Value() == AfterAllow(old(Value()), now)
    {
      if state != Open {
        return true;
      }
      if now - openedAt >= cooldown {
        state := HalfOpen;
        return true;
      }
      return false;
    }

    method RecordSuccess()
      modifies this
      ensures Value() == AfterSuccess(old(Value()))
    {
      state := Closed;
      openedClass := "";
      failures := map[];
    }

    method RecordFailure(errClass: string, now: int)
      modifies this
      ensures Value() == AfterFailure(old(Value()), errClass, now)
    {
      var c := if errClass == "" then "unknown" else errClass;
      if state == HalfOpen {
        state, openedAt, openedClass := Open, now, c;
        return;
      }
      failures := failures[c := (if c in failures then failures[c] else 0) + 1];
      if failures[c] >= threshold {
        state, openedAt, openedClass := Open, now, c;
      }
    }

    /** The breaker's part in one iteration of the worker's main loop; true when it opened. */
    method WorkerIteration(it: Iteration) returns (trips: bool)
      modifies this
      ensures Value() == AfterIteration(old(Value()), it)
      ensures trips == Opens(old(Value()), it)
    {
      trips := false;
      var ok := Allow(it.at);
      if !ok {
        return;
      }
      var before := state;
      match it.outcome {
        case PollFailed(errClass, now) =>
          RecordFailure(errClass, now);
        case Polled(task) =>
          if state == HalfOpen && openedClass == SOURCE_CLASS {
            RecordSuccess();
          }
          before := state;
          match task {
            case NoModelTask =>
            case TaskFailed(errClass, now) => RecordFailure(errClass, now);
            case TaskDone => RecordSuccess();
          }
      }
      trips := before != Open && state == Open;
    }
  }

  // -------------------------------------------------- counters against history

  datatype Op = AllowAt(now: int) | Success | Failure(errClass: string, at: int)

  function AfterOp(v: View, op: Op): View {
    match op
    case AllowAt(now) => AfterAllow(v, now)
    case Success => AfterSuccess(v)
    case Failure(c, now) => AfterFailure(v, c, now)
  }

  function AfterOps(v: View, ops: seq<Op>): View {
    if ops == [] then v else AfterOp(AfterOps(v, ops[..|ops| - 1]), ops[|ops| - 1])
  }

  /** The failures of a class that were recorded since the last success. */
  function FailuresSince(ops: seq<Op>, errClass: string): nat {
    if ops == [] then 0
    else
      var before := FailuresSince(ops[..|ops| - 1], errClass);
      match ops[|ops| - 1]
      case AllowAt(_) => before
      case Success => 0
      case Failure(c, _) => if Class(c) == errClass then before + 1 else before
  }

  /**
   Whatever calls were made, in whatever order and at whatever times: a closed breaker has counted, for
   each class, exactly the failures since the last success, and every count is below the threshold.
   */
  lemma {:induction false} ClosedCountsFailures(threshold: int, cooldown: int, ops: seq<Op>, errClass: string)
    ensures var v := AfterOps(NewView(threshold, cooldown), ops);
            v.state.Closed? ==>
              && Count(v, errClass) == FailuresSince(ops, errClass)
              && FailuresSince(ops, errClass) < v.threshold
  {
    SettingsStay(threshold, cooldown, ops);
    if ops != [] {
      var init, op := ops[..|ops| - 1], ops[|ops| - 1];
      SettingsStay(threshold, cooldown, init);
      ClosedCountsFailures(threshold, cooldown, init, errClass);
      if op.Failure? {
        ClosedCountsFailures(threshold, cooldown, init, Class(op.errClass));
      }
    }
  }

  lemma {:induction false} SettingsStay(threshold: int, cooldown: int, ops: seq<Op>)
    ensures var v := AfterOps(NewView(threshold, cooldown), ops);
            && v.threshold == NewView(threshold, cooldown).threshold > 0
            && v.cooldown == NewView(threshold, cooldown).cooldown > 0
  {
    if ops != [] {
      SettingsStay(threshold, cooldown, ops[..|ops| - 1]);
    }
  }

  /** A closed breaker opens at a failure iff that failure is the threshold-th of its class since the last success. */
  lemma OpensAtThreshold(threshold: int, cooldown: int, ops: seq<Op>, errClass: string, now: int)
    requires AfterOps(NewView(threshold, cooldown), ops).state.Closed?
    ensures var v := AfterOps(NewView(threshold, cooldown), ops);
            AfterFailure(v, errClass, now).state.Open?
            <==> FailuresSince(ops + [Failure(errClass, now)], Class(errClass)) == v.threshold
  {
    ClosedCountsFailures(threshold, cooldown, ops, Class(errClass));
    var all := ops + [Failure(errClass, now)];
    assert all[..|all| - 1] == ops && all[|all| - 1] == Failure(errClass, now);
  }

  // ------------------------------------------------------- opening and recovery

  /** Of a breaker that is not closed, a class that failed as often as the threshold says. */
  lemma {:induction false} FailedOften(threshold: int, cooldown: int, ops: seq<Op>) returns (c: string)
    requires !AfterOps(NewView(threshold, cooldown), ops).state.Closed?
    ensures FailuresSince(ops, c) >= NewView(threshold, cooldown).threshold
  {
    var init, op := ops[..|ops| - 1], ops[|ops| - 1];
    var before := AfterOps(NewView(threshold, cooldown), init);
    if before.state.Closed? {
      SettingsStay(threshold, cooldown, init);
      assert ops == init + [op];
      OpensAtThreshold(threshold, cooldown, init, op.errClass, op.at);
      c := Class(op.errClass);
    } else {
      c := FailedOften(threshold, cooldown, init);
    }
  }

  /**
   After any calls the breaker is closed iff since the last success no class has failed as often as the
   threshold says; five times, if none is set.
   */
  lemma {:induction false} ClosedIff(threshold: int, cooldown: int, ops: seq<Op>)
    ensures AfterOps(NewView(threshold, cooldown), ops).state.Closed?
            <==> forall c :: FailuresSince(ops, c) < if threshold <= 0 then 5 else threshold
  {
    var v := AfterOps(NewView(threshold, cooldown), ops);
    if v.state.Closed? {
      forall c
        ensures FailuresSince(ops, c) < NewView(threshold, cooldown).threshold
      {
        SettingsStay(threshold, cooldown, ops);
        ClosedCountsFailures(threshold, cooldown, ops, c);
      }
    } else {
      var c := FailedOften(threshold, cooldown, ops);
      assert !(FailuresSince(ops, c) < if threshold <= 0 then 5 else threshold);
    }
  }

  /** A success closes the breaker, and it stays closed until some class has failed `threshold` times. */
  lemma SuccessCloses(threshold: int, cooldown: int, ops: seq<Op>, more: seq<Op>)
    requires forall c :: FailuresSince(more, c) < if threshold <= 0 then 5 else threshold
    ensures AfterOps(NewView(threshold, cooldown), ops + [Success] + more).state.Closed?
  {
    forall c
      ensures FailuresSince(ops + [Success] + more, c) == FailuresSince(more, c)
    {
      SuccessForgets(ops, more, c);
    }
    ClosedIff(threshold, cooldown, ops + [Success] + more);
  }

  lemma {:induction false} SuccessForgets(ops: seq<Op>, more: seq<Op>, c: string)
    ensures FailuresSince(ops + [Success] + more, c) == FailuresSince(more, c)
  {
    var all := ops + [Success] + more;
    if more == [] {
      assert all[..|all| - 1] == ops;
    } else {
      assert all[..|all| - 1] == ops + [Success] + more[..|more| - 1];
      SuccessForgets(ops, more[..|more| - 1], c);
    }
  }

  /** A failure of the probe opens the breaker again, from its own time on. */
  lemma FailedProbeReopens(threshold: int, cooldown: int, ops: seq<Op>, c: string, now: int)
    requires AfterOps(NewView(threshold, cooldown), ops).state.HalfOpen?
    ensures var v := AfterOps(NewView(threshold, cooldown), ops + [Failure(c, now)]);
            v.state.Open? && v.openedAt == now && v.openedClass == if c == "" then "unknown" else c
  {
    var all := ops + [Failure(c, now)];
    assert all[..|all| - 1] == ops;
  }

  /** An open breaker refuses until the cooldown is over; then it grants one call and is half-open. */
  lemma CooldownGrants(threshold: int, cooldown: int, ops: seq<Op>, now: int)
    ensures var v := AfterOps(NewView(threshold, cooldown), ops);
            var v' := AfterOps(NewView(threshold, cooldown), ops + [AllowAt(now)]);
            var wait := if cooldown <= 0 then 30_000_000_000 else cooldown;
            && (v.state.Open? ==> (Allows(v, now) <==> now >= v.openedAt + wait))
            && (!v.state.Open? ==> Allows(v, now))
            && v' == if v.state.Open? && now >= v.openedAt + wait then v.(state := HalfOpen) else v
  {
    SettingsStay(threshold, cooldown, ops);
    var all := ops + [AllowAt(now)];
    assert all[..|all| - 1] == ops;
  }

  /** A breaker that is not closed was opened by a failure, at its time and for its class, and not closed since. */
  lemma {:induction false} OpenedByFailure(threshold: int, cooldown: int, ops: seq<Op>) returns (k: nat)
    requires !AfterOps(NewView(threshold, cooldown), ops).state.Closed?
    ensures var v := AfterOps(NewView(threshold, cooldown), ops);
            && k < |ops| && ops[k].Failure? && v.openedAt == ops[k].at
            && v.openedClass == (if ops[k].errClass == "" then "unknown" else ops[k].errClass)
            && AfterOps(NewView(threshold, cooldown), ops[..k + 1]).state.Open?
            && forall j :: k < j <= |ops| ==> !AfterOps(NewView(threshold, cooldown), ops[..j]).state.Closed?
  {
    var init, op := ops[..|ops| - 1], ops[|ops| - 1];
    var w, v := AfterOps(NewView(threshold, cooldown), init), AfterOps(NewView(threshold, cooldown), ops);
    assert ops[..|ops|] == ops;
    if op.Failure? && v.state.Open? && (v.openedAt != w.openedAt || v.openedClass != w.openedClass || !w.state.Open?) {
      k := |ops| - 1;
    } else {
      k := OpenedByFailure(threshold, cooldown, init);
      assert init[..k + 1] == ops[..k + 1];
      forall j | k < j <= |ops|
        ensures !AfterOps(NewView(threshold, cooldown), ops[..j]).state.Closed?
      {
        if j < |ops| {
          assert init[..j] == ops[..j];
        }
      }
    }
  }

  /** The failures of a class in a row at the end: since the last success and the last failure of another class. */
  function Streak(ops: seq<Op>, errClass: string): nat {
    if ops == [] then 0
    else
      var before := Streak(ops[..|ops| - 1], errClass);
      match ops[|ops| - 1]
      case AllowAt(_) => before
      case Success => 0
      case Failure(c, _) => if Class(c) == errClass then before + 1 else 0
  }

  /** Since the last success a failure of another class has come after one of this class. */
  predicate Mixed(ops: seq<Op>, errClass: string) {
    ops != [] &&
    var init := ops[..|ops| - 1];
    match ops[|ops| - 1]
    case AllowAt(_) => Mixed(init, errClass)
    case Success => false
    case Failure(c, _) => Mixed(init, errClass) || (Class(c) != errClass && FailuresSince(init, errClass) > 0)
  }

  lemma {:induction false} UnmixedIsStreak(ops: seq<Op>, errClass: string)
    ensures Streak(ops, errClass) <= FailuresSince(ops, errClass)
    ensures Streak(ops, errClass) == FailuresSince(ops, errClass) <==> !Mixed(ops, errClass)
  {
    if ops != [] {
      UnmixedIsStreak(ops[..|ops| - 1], errClass);
    }
  }

  /**
   The promise that a closed breaker opens exactly when a class fails `threshold` times in a row holds at a
   failure iff the failure is not the threshold-th of its class with one of another class in between.
   */
  lemma OpensOnStreakIff(threshold: int, cooldown: int, ops: seq<Op>, errClass: string, now: int)
    requires AfterOps(NewView(threshold, cooldown), ops).state.Closed?
    ensures var v := AfterOps(NewView(threshold, cooldown), ops);
            var all, c := ops + [Failure(errClass, now)], Class(errClass);
            (AfterFailure(v, errClass, now).state.Open? <==> Streak(all, c) == v.threshold)
            <==> !(FailuresSince(all, c) == v.threshold && Mixed(all, c))
  {
    var all, c := ops + [Failure(errClass, now)], Class(errClass);
    OpensAtThreshold(threshold, cooldown, ops, errClass, now);
    ClosedCountsFailures(threshold, cooldown, ops, c);
    assert all[..|all| - 1] == ops && all[|all| - 1] == Failure(errClass, now);
    UnmixedIsStreak(all, c);
  }

  /** With threshold two: two failures of a class with another one between them open the breaker. */
  lemma OpensWithoutStreak(cooldown: int, c: string, d: string, now: int)
    requires Class(c) != Class(d)
    ensures var ops := [Failure(c, now), Failure(d, now)];
            var v := AfterOps(NewView(2, cooldown), ops);
            && v.state.Closed? && AfterFailure(v, c, now).state.Open?
            && Streak(ops + [Failure(c, now)], Class(c)) == 1
  {
    var first := [Failure(c, now)];
    var ops := [Failure(c, now), Failure(d, now)];
    assert first[..0] == [] && ops[..1] == first && (ops + [Failure(c, now)])[..2] == ops;
    assert AfterOps(NewView(2, cooldown), []) == NewView(2, cooldown);
    assert AfterOps(NewView(2, cooldown), first) == AfterFailure(NewView(2, cooldown), c, now);
  }

  // --------------------------------------------------------- the worker's use

  datatype Task = NoModelTask | TaskFailed(errClass: string, at: int) | TaskDone

  datatype Outcome = PollFailed(pollClass: string, pollAt: int) | Polled(task: Task)

  /** One iteration of the main loop: when Allow is asked, and what happens if it allows. */
  datatype Iteration = Iteration(at: int, outcome: Outcome)

  function AfterIteration(v: View, it: Iteration): View {
    if !Allows(v, it.at) then v
    else
      var allowed := AfterAllow(v, it.at);
      match it.outcome
      case PollFailed(c, now) => AfterFailure(allowed, c, now)
      case Polled(task) =>
        var polled := if allowed.state.HalfOpen? && allowed.openedClass == SOURCE_CLASS
                      then AfterSuccess(allowed) else allowed;
        match task
        case NoModelTask => polled
        case TaskFailed(c, now) => AfterFailure(polled, c, now)
        case TaskDone => AfterSuccess(polled)
  }

  function AfterIterations(v: View, its: seq<Iteration>): View {
    if its == [] then v else AfterIteration(AfterIterations(v, its[..|its| - 1]), its[|its| - 1])
  }

  /**
   The turn after the cooldown is the probe: a failure opens the breaker again, a finished task closes it,
   and so does a successful poll if it was the polling that had failed.
   */
  lemma ProbeDecides(v: View, it: Iteration)
    requires v.state.Open? && it.at >= v.openedAt + v.cooldown && v.threshold > 0
    ensures var v' := AfterIteration(v, it);
            match it.outcome
            case PollFailed(_, now) => v'.state.Open? && v'.openedAt == now
            case Polled(TaskDone) => v'.state.Closed? && v'.failures == map[]
            case Polled(NoModelTask) =>
              if v.openedClass == "command_source_api" then v'.state.Closed? && v'.failures == map[]
              else v'.state.HalfOpen?
            case Polled(TaskFailed(c, now)) =>
              if v.openedClass == "command_source_api" && v.threshold > 1
              then v'.state.Closed? && v'.failures == map[Class(c) := 1]
              else v'.state.Open? && v'.openedAt == now
  {
  }

  /** The last moment of an iteration. */
  function EndOf(it: Iteration): int {
    match it.outcome
    case PollFailed(_, now) => now
    case Polled(TaskFailed(_, now)) => now
    case _ => it.at
  }

  /** The clock does not run backwards. */
  ghost predicate Clocked(its: seq<Iteration>) {
    && (forall i :: 0 <= i < |its| ==> its[i].at <= EndOf(its[i]))
    && (forall i :: 0 <= i < |its| - 1 ==> EndOf(its[i]) <= its[i + 1].at)
  }

  /** In this iteration the breaker went, or went back, into the open state. */
  predicate Opens(v: View, it: Iteration) {
    Allows(v, it.at) && AfterIteration(v, it).state.Open?
  }

  /** The times at which a breaker opened. */
  function Openings(v: View, its: seq<Iteration>): seq<int> {
    if its == [] then []
    else
      var init, it := its[..|its| - 1], its[|its| - 1];
      var before := AfterIterations(v, init);
      Openings(v, init) + (if Opens(before, it) then [AfterIteration(before, it).openedAt] else [])
  }

  ghost predicate Apart(times: seq<int>, gap: int) {
    forall i :: 0 <= i < |times| - 1 ==> times[i + 1] - times[i] >= gap
  }

  /** After an opening the breaker either is still open since then, or the cooldown has passed. */
  ghost predicate Cooling(v: View, openings: seq<int>, now: int) {
    openings != [] ==>
      var last := openings[|openings| - 1];
      if v.state.Open? then v.openedAt == last && last <= now else last + v.cooldown <= now
  }

  lemma IterationKeepsCooling(v: View, openings: seq<int>, now: int, it: Iteration)
    requires v.cooldown > 0 && Apart(openings, v.cooldown) && Cooling(v, openings, now)
    requires v.state.Open? ==> openings != []
    requires now <= it.at <= EndOf(it)
    ensures var v' := AfterIteration(v, it);
            var openings' := openings + (if Opens(v, it) then [v'.openedAt] else []);
            && v'.cooldown == v.cooldown
            && Apart(openings', v.cooldown) && Cooling(v', openings', EndOf(it))
            && (v'.state.Open? ==> openings' != [])
  {
  }

  /**
   However polls and tasks fail, two consecutive openings of the worker's breaker are at least the
   cooldown apart.
   */
  lemma {:induction false} OpeningsAreApart(threshold: int, cooldown: int, its: seq<Iteration>)
    requires Clocked(its)
    ensures var v0 := NewView(threshold, cooldown);
            var v := AfterIterations(v0, its);
            && v.cooldown == v0.cooldown > 0
            && Apart(Openings(v0, its), v0.cooldown)
            && (v.state.Open? ==> Openings(v0, its) != [])
            && (its != [] ==> Cooling(v, Openings(v0, its), EndOf(its[|its| - 1])))
  {
    if its != [] {
      var init := its[..|its| - 1];
      var v0 := NewView(threshold, cooldown);
      OpeningsAreApart(threshold, cooldown, init);
      var now := if init == [] then its[0].at else EndOf(init[|init| - 1]);
      IterationKeepsCooling(AfterIterations(v0, init), Openings(v0, init), now, its[|its| - 1]);
    }
  }

  /** Times that are `gap` apart and lie within a span number at most one more than the gaps that fit. */
  lemma {:induction false} ApartAreFew(times: seq<int>, gap: int, first: int, last: int)
    requires gap > 0 && Apart(times, gap) && times != []
    requires first <= times[0] && times[|times| - 1] <= last
    ensures |times| <= 1 + (last - first) / gap
  {
    SpanOf(times, gap);
    var n := |times| - 1;
    assert n * gap <= last - first;
    assert n <= (last - first) / gap by {
      if n > (last - first) / gap {
        Quotient(last - first, gap, n);
      }
    }
  }

  lemma Quotient(span: int, gap: int, n: int)
    requires gap > 0 && n > span / gap
    ensures n * gap > span
  {
    assert (span / gap + 1) * gap > span;
    assert n * gap >= (span / gap + 1) * gap;
  }

  lemma {:induction false} SpanOf(times: seq<int>, gap: int)
    requires gap > 0 && Apart(times, gap) && times != []
    ensures times[|times| - 1] - times[0] >= (|times| - 1) * gap
  {
    if |times| > 1 {
      SpanOf(times[..|times| - 1], gap);
    }
  }

  ghost predicate Within(times: seq<int>, lo: int, hi: int) {
    forall i :: 0 <= i < |times| ==> lo <= times[i] <= hi
  }

  lemma OpensNow(v: View, it: Iteration)
    requires Opens(v, it) && it.at <= EndOf(it)
    ensures it.at <= AfterIteration(v, it).openedAt <= EndOf(it)
  {
  }

  /** The openings of a run lie within the run. */
  lemma {:induction false} OpeningsInRun(v: View, its: seq<Iteration>)
    requires Clocked(its) && its != []
    ensures Within(Openings(v, its), its[0].at, EndOf(its[|its| - 1]))
  {
    hide AfterIteration, Opens, EndOf, Allows;
    var init, it := its[..|its| - 1], its[|its| - 1];
    assert it.at <= EndOf(it);
    if Opens(AfterIterations(v, init), it) {
      OpensNow(AfterIterations(v, init), it);
    }
    StartsFirst(its);
    if init != [] {
      assert EndOf(its[|its| - 2]) <= its[|its| - 2 + 1].at;
      OpeningsInRun(v, init);
    }
  }

  lemma {:induction false} StartsFirst(its: seq<Iteration>)
    requires Clocked(its) && its != []
    ensures its[0].at <= its[|its| - 1].at
  {
    if |its| > 1 {
      StartsFirst(its[..|its| - 1]);
    }
  }

  /** A run that spans time T opens the breaker at most 1 + T / cooldown times. */
  lemma OpeningsAreBounded(threshold: int, cooldown: int, its: seq<Iteration>)
    requires Clocked(its) && its != []
    ensures var v0 := NewView(threshold, cooldown);
            v0.cooldown > 0
            && |Openings(v0, its)| <= 1 + (EndOf(its[|its| - 1]) - its[0].at) / v0.cooldown
  {
    var v0 := NewView(threshold, cooldown);
    hide AfterIteration, AfterIterations, Openings, Opens, EndOf, Allows;
    OpeningsAreApart(threshold, cooldown, its);
    OpeningsInRun(v0, its);
    StartsFirst(its);
    assert its[|its| - 1].at <= EndOf(its[|its| - 1]);
    var times := Openings(v0, its);
    if times != [] {
      ApartAreFew(times, v0.cooldown, its[0].at, EndOf(its[|its| - 1]));
    }
  }
}

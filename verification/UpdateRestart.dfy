/**
 A supervisor that is killed at the loop head, and the one that is started after it: the machine's steps
 from the kill through the startup cleanup back to the loop head are the killed passes of the drain.
 */
module UpdateRestart {
  import opened Options
  import opened ArtifactStatus
  import opened ArtifactTable
  import opened UpdateProtocol
  import opened UpdateInvariant
  import opened UpdateRuns
  import opened UpdateRefinement
  import opened RollbackDrain
  import Sup = Supervisor
  import Text

  lemma {:induction false} ExecuteConcat(w: World, a: seq<Action>, b: seq<Action>)
    ensures Execute(w, a + b) == Execute(Execute(w, a), b)
    decreases |b|
  {
    hide Step;
    if b == [] {
      assert a + b == a;
    } else {
      assert (a + b)[..|a + b| - 1] == a + b[..|b| - 1];
      ExecuteConcat(w, a, b[..|b| - 1]);
    }
  }

  lemma ExecuteOne(w: World, act: Action)
    ensures Execute(w, [act]) == Step(w, act)
  {
    hide Step;
    assert [act][..0] == [];
    assert Execute(w, []) == w;
  }

  lemma ExecuteThen(w: World, acts: seq<Action>, act: Action)
    ensures Execute(w, acts + [act]) == Step(Execute(w, acts), act)
  {
    hide Step;
    ExecuteConcat(w, acts, [act]);
    ExecuteOne(Execute(w, acts), act);
  }

  function Times(n: nat, act: Action): (r: seq<Action>)
    ensures |r| == n && forall a :: a in r ==> a == act
  {
    seq(n, _ => act)
  }

  lemma {:induction false} AloneIsExecute(w: World, i: nat, c: Choice, n: nat)
    ensures Alone(w, i, c, n) == Execute(w, Times(n, Run(i, c)))
  {
    hide Step;
    if n > 0 {
      AloneIsExecute(w, i, c, n - 1);
      assert Times(n, Run(i, c)) == Times(n - 1, Run(i, c)) + [Run(i, c)];
      ExecuteThen(w, Times(n - 1, Run(i, c)), Run(i, c));
    }
  }

  lemma {:induction false} InvExecute(w: World, acts: seq<Action>)
    requires Inv(w)
    ensures Inv(Execute(w, acts))
  {
    hide Step, Inv;
    if acts != [] {
      InvExecute(w, acts[..|acts| - 1]);
      StepKeeps(Execute(w, acts[..|acts| - 1]), acts[|acts| - 1]);
    }
  }

  // ----------------------------------------------------------------- a restart

  predicate IsStart(act: Action) {
    act.StartContainer? || act.StartSupervisor?
  }

  /** The path a start resets the link to, if any. */
  function Relink(root: string, start: Action): Option<string> {
    if start.StartContainer? then Some(BinPath(root, BOOTSTRAP)) else None
  }

  function LocalOf(w: World): Local {
    Local(w.db.rows, w.link)
  }

  lemma KillAndStart(w: World, s: nat, start: Action)
    requires s < |w.procs| && w.procs[s].Supervisor? && IsStart(start)
    ensures var w' := Step(Step(w, Kill(s)), start);
            && w'.procs == w.procs[s := Gone] + [Supervisor(Main(Ensure))]
            && w'.db == w.db && w'.root == w.root
            && w'.link == if Relink(w.root, start).Some? then Relink(w.root, start).value else w.link
  {
  }

  lemma EnsureStep(w: World, n: nat, c: Choice)
    requires n < |w.procs| && w.procs[n] == Supervisor(Main(Ensure)) && LatestPromotedTx(w.db.rows) != ""
    ensures Step(w, Run(n, c)) == w.(procs := w.procs[n := Supervisor(Main(Cleanup))])
  {
  }

  lemma EnsureInsertStep(w: World, n: nat, c: Choice)
    requires At(w, n, Supervisor(Main(Ensure)))
    ensures var w', made := Step(w, Run(n, c)), LatestPromotedTx(w.db.rows) == "" && !Text.IsBlank(w.link) && c.ok;
            w' == w.(procs := w.procs[n := Supervisor(Main(if made then EnsureInsert(w.link) else Cleanup))])
  {
    hide LatestPromotedTx;
    OneStep(w, n, c);
  }

  lemma InsertBootstrapStep(w: World, n: nat, c: Choice, bin: string)
    requires At(w, n, Supervisor(Main(EnsureInsert(bin)))) && EnsureBootstrap(w.db, BOOTSTRAP, bin, c.now).Ok?
    ensures var w' := Step(w, Run(n, c));
            && w' == WithDb(w, EnsureBootstrap(w.db, BOOTSTRAP, bin, c.now).value).(procs := w'.procs)
            && w'.procs == w.procs[n := Supervisor(Main(EnsureLog))]
  {
    hide EnsureBootstrap;
    OneStep(w, n, c);
  }

  lemma EnsureLogStep(w: World, n: nat, c: Choice)
    requires At(w, n, Supervisor(Main(EnsureLog)))
    ensures Step(w, Run(n, c))
            == w.(db := Logged(w.db, PromotedEvent, BOOTSTRAP), procs := w.procs[n := Supervisor(Main(Cleanup))])
  {
    OneStep(w, n, c);
  }

  predicate MakesRecord(w: World, c: Choice) {
    LatestPromotedTx(w.db.rows) == "" && !Text.IsBlank(w.link) && c.ok
  }

  lemma MadeAlone(w: World, n: nat, c: Choice)
    requires At(w, n, Supervisor(Main(Ensure))) && MakesRecord(w, c)
    ensures var w' := Alone(w, n, c, 3);
            && w'.db == Sup.EnsureOutcome(w.db, w.link, c.ok, c.now)
            && w' == w.(db := w'.db, promotedEver := w.promotedEver + PromotedTxs(w'.db.rows),
                        procs := w.procs[n := Supervisor(Main(Cleanup))])
  {
    Sup.BootstrapIsNoBlank(w.db, w.link, c.now);
    EnsureInsertStep(w, n, c);
    hide Step, EnsureBootstrap, LatestPromotedTx, PromotedTxs;
    assert Alone(w, n, c, 0) == w;
    AloneStep(w, n, c, 0);
    var w1 := Alone(w, n, c, 1);
    AloneStep(w, n, c, 1);
    InsertBootstrapStep(w1, n, c, w.link);
    AloneStep(w, n, c, 2);
    EnsureLogStep(Alone(w, n, c, 2), n, c);
  }

  /** The first part of a start: the same outcome as EnsureBootstrapRecord. */
  lemma EnsureAlone(w: World, n: nat, c: Choice) returns (k: nat)
    requires At(w, n, Supervisor(Main(Ensure)))
    ensures var w' := Alone(w, n, c, k);
            && w'.db == Sup.EnsureOutcome(w.db, w.link, c.ok, c.now)
            && w' == w.(db := w'.db, procs := w.procs[n := Supervisor(Main(Cleanup))],
                        promotedEver := if MakesRecord(w, c) then w.promotedEver + PromotedTxs(w'.db.rows)
                                        else w.promotedEver)
  {
    if MakesRecord(w, c) {
      hide Alone, Step, Sup.EnsureOutcome, PromotedTxs;
      MadeAlone(w, n, c);
      return 3;
    }
    hide Step, LatestPromotedTx, EnsureBootstrap, PromotedTxs;
    assert Alone(w, n, c, 0) == w;
    AloneStep(w, n, c, 0);
    EnsureInsertStep(w, n, c);
    k := 1;
  }

  /** Nothing has ever run over this store. */
  predicate Blank(w: World) {
    IsAbsolute(w.root) && w.db == Db([], []) && w.procs == [] && w.promotedEver == {} && !w.tampered
  }

  /**
   The very first start of the container installs bootstrap: the supervisor comes to the cleanup over a
   store with the promoted bootstrap row, which is active, and the invariant of all later runs holds.
   */
  lemma FirstStartInstalls(w: World, d: Digest, c: Choice) returns (k: nat)
    requires Blank(w) && c.ok
    ensures var v := Alone(Step(w, StartContainer(d)), 0, c, k);
            && Inv(v) && v.root == w.root && v.link == BinPath(w.root, BOOTSTRAP)
            && v.procs == [Supervisor(Main(Cleanup))]
            && v.db == Db([NewRow(BOOTSTRAP, None, BinPath(w.root, BOOTSTRAP), Promoted, c.now)],
                          [Event(PromotedEvent, BOOTSTRAP)])
  {
    var u := Step(w, StartContainer(d));
    var link := BinPath(w.root, BOOTSTRAP);
    BinPathUntrimmed(w.root, BOOTSTRAP);
    assert link != "";
    assert u.link == link && u.db == Db([], []) && u.procs == [Supervisor(Main(Ensure))];
    hide Step, BinPath, Text.TrimSpace, Text.IsBlank;
    Text.BlankIffNothing(link);
    FirstOutcome(link, c.now);
    k := EnsureAlone(u, 0, c);
    hide Alone, Sup.EnsureOutcome;
    InstalledOk(Alone(u, 0, c, k), c.now);
  }

  lemma FirstOutcome(link: string, now: int)
    requires !Text.IsBlank(link) && Text.TrimSpace(link) == link
    ensures LatestPromotedTx([]) == ""
    ensures Sup.EnsureOutcome(Db([], []), link, true, now)
            == Db([NewRow(BOOTSTRAP, None, link, Promoted, now)], [Event(PromotedEvent, BOOTSTRAP)])
  {
    Sup.BootstrapIsNoBlank(Db([], []), link, now);
    hide Text.TrimSpace, Text.IsBlank;
    assert !Has([], BOOTSTRAP);
  }

  lemma InstalledOk(w: World, now: int)
    requires IsAbsolute(w.root) && w.link == BinPath(w.root, BOOTSTRAP) && w.procs == [Supervisor(Main(Cleanup))]
    requires w.db == Db([NewRow(BOOTSTRAP, None, w.link, Promoted, now)], [Event(PromotedEvent, BOOTSTRAP)])
    requires w.promotedEver == PromotedTxs(w.db.rows)
    ensures Inv(w)
  {
    hide BinPath, IsTxId;
    BootstrapIsTxId();
    var log := w.db.log;
    assert log[..0] == [];
    assert forall tx :: Trail(log, tx) == [];
    assert w.db.rows[0].txId == BOOTSTRAP && IndexOf(w.db.rows, BOOTSTRAP) == 0;
    assert forall tx :: tx in w.promotedEver <==> tx == BOOTSTRAP;
    assert RowOk(w, 0) && Vetted(w, 0) && PromotedRecord(w, BOOTSTRAP);
  }

  lemma CleanupStep(w: World, n: nat, c: Choice)
    requires n < |w.procs| && w.procs[n] == Supervisor(Main(Cleanup))
    ensures var w' := Step(w, Run(n, c));
            && w'.db == Db(Cleaned(w.db.rows, c.now), w.db.log) && w'.link == w.link && w'.root == w.root
            && w'.procs == w.procs[n := Supervisor(Main(
                                          if Cleaned(w.db.rows, c.now) != w.db.rows then CleanupLog else Head))]
  {
    hide Cleaned;
  }

  lemma CleanupLogStep(w: World, n: nat, c: Choice)
    requires n < |w.procs| && w.procs[n] == Supervisor(Main(CleanupLog))
    ensures var w' := Step(w, Run(n, c));
            && w'.db == Logged(w.db, CleanupCompletedEvent, "") && w'.link == w.link && w'.root == w.root
            && w'.procs == w.procs[n := Supervisor(Main(Head))]
  {
  }

  /**
   From a start to the loop head: the link is as the start left it, the table cleaned, and whatever was
   cleaned, the log has at most one event more, which names no artifact.
   */
  lemma StartupAlone(w: World, n: nat, c: Choice) returns (k: nat)
    requires At(w, n, Supervisor(Main(Ensure))) && LatestPromotedTx(w.db.rows) != ""
    ensures var w' := Alone(w, n, c, k);
            && 2 <= k <= 3 && w'.link == w.link && w'.root == w.root && w'.db.rows == Cleaned(w.db.rows, c.now)
            && w'.db.log == w.db.log + (if Cleaned(w.db.rows, c.now) != w.db.rows
                                        then [Event(CleanupCompletedEvent, "")] else [])
            && w'.procs == w.procs[n := Supervisor(Main(Head))]
  {
    hide Step, LatestPromotedTx, Cleaned;
    assert Alone(w, n, c, 0) == w;
    AloneStep(w, n, c, 0);
    EnsureStep(w, n, c);
    var w1 := Alone(w, n, c, 1);
    AloneStep(w, n, c, 1);
    CleanupStep(w1, n, c);
    var w2 := Alone(w, n, c, 2);
    k := 2;
    if w2.procs[n] == Supervisor(Main(CleanupLog)) {
      AloneStep(w, n, c, 2);
      CleanupLogStep(w2, n, c);
      k := 3;
    }
  }

  /** Killed at any place and started again, a supervisor comes to the loop head over the cleaned table. */
  lemma RestartReachesHead(w: World, s: nat, start: Action, c: Choice) returns (acts: seq<Action>)
    requires Inv(w) && s < |w.procs| && w.procs[s].Supervisor? && IsStart(start)
    ensures var w' := Execute(w, acts);
            && w'.procs == w.procs[s := Gone] + [Supervisor(Main(Head))] && w'.root == w.root
            && LocalOf(w') == Restarted(LocalOf(w), Relink(w.root, start), c.now)
  {
    hide Step, Inv, LatestPromotedTx, Cleaned, BinPath;
    var n := |w.procs|;
    KillAndStart(w, s, start);
    ExecuteOne(w, Kill(s));
    ExecuteThen(w, [Kill(s)], start);
    var w2 := Execute(w, [Kill(s)] + [start]);
    InvExecute(w, [Kill(s)] + [start]);
    PromotedThere(w2);
    var k := StartupAlone(w2, n, c);
    AloneIsExecute(w2, n, c, k);
    ExecuteConcat(w, [Kill(s)] + [start], Times(k, Run(n, c)));
    acts := [Kill(s)] + [start] + Times(k, Run(n, c));
  }

  lemma PromotedThere(w: World)
    requires Inv(w)
    ensures LatestPromotedTx(w.db.rows) != ""
  {
    SomePromoted(w);
  }

  // ------------------------------------------------------------- killed passes

  /** The kill point of a supervisor that has taken k steps of a pass. */
  function PointAfter(k: nat): KillPoint {
    if k <= 2 then BeforeSwitch else if k == 3 then BeforeMark else AfterMark
  }

  /** The place in the pass after k steps, for the newest pending row and its base. */
  function PlaceAfter(a: Row, target: Row, k: nat): Proc {
    if k == 0 then Supervisor(Main(Head))
    else
      Supervisor(Rollback(
        if k == 1 then Lookup(a)
        else if k == 2 then SwitchBack(a, target)
        else if k == 3 then MarkRolledBack(a)
        else if k == 4 then LogAttempt(a)
        else LogRolledBack(a),
        LoopHead))
  }

  /** The newest pending row and its base. */
  ghost predicate Picks(rows: seq<Row>, a: Row, target: Row) {
    && LatestWithStatus(rows, RollbackPending).Some?
    && a == rows[LatestWithStatus(rows, RollbackPending).value]
    && Has(rows, BaseString(a)) && target == rows[IndexOf(rows, BaseString(a))]
  }

  lemma FirstSteps(w: World, i: nat, c: Choice, a: Row, target: Row, k: nat)
    requires At(w, i, Supervisor(Main(Head))) && c.ok && Picks(w.db.rows, a, target) && k <= 3
    ensures var w' := Alone(w, i, c, k);
            && At(w', i, PlaceAfter(a, target, k)) && w'.db == w.db && w'.root == w.root
            && w'.link == if k == 3 then target.binPath else w.link
  {
    hide Step, IndexOf;
    assert Alone(w, i, c, 0) == w;
    if k > 0 {
      FirstSteps(w, i, c, a, target, k - 1);
      AloneStep(w, i, c, k - 1);
      var v := Alone(w, i, c, k - 1);
      RootStays(v, Run(i, c));
      if k == 1 {
        HeadStep(v, i, c);
      } else if k == 2 {
        RollbackStep(v, i, c, Lookup(a), LoopHead);
      } else {
        RollbackStep(v, i, c, SwitchBack(a, target), LoopHead);
      }
    }
  }

  lemma RootStays(w: World, act: Action)
    ensures Step(w, act).root == w.root
  {
    hide NextSupervisor, NextWatcher, NextWorker, Insert, Cas;
  }

  lemma LastSteps(w: World, i: nat, c: Choice, a: Row, target: Row, k: nat)
    requires At(w, i, Supervisor(Main(Head))) && c.ok && Picks(w.db.rows, a, target) && 3 <= k <= 5
    ensures var w' := Alone(w, i, c, k);
            && At(w', i, PlaceAfter(a, target, k)) && w'.link == target.binPath && w'.root == w.root
            && w'.db.rows == if k == 3 then w.db.rows
                             else UpdateWhere(w.db.rows, a.txId, RollbackPending, TransitionWrite(RolledBack, ""),
                                              c.now)
  {
    hide Step, IndexOf, UpdateWhere, TransitionWrite;
    FirstSteps(w, i, c, a, target, 3);
    if k > 3 {
      LastSteps(w, i, c, a, target, k - 1);
      AloneStep(w, i, c, k - 1);
      var v := Alone(w, i, c, k - 1);
      RootStays(v, Run(i, c));
      if k == 4 {
        assert Hit(a, a.txId, RollbackPending);
        assert w.db.rows[LatestWithStatus(w.db.rows, RollbackPending).value] == a;
        RollbackStep(v, i, c, MarkRolledBack(a), LoopHead);
      } else {
        RollbackStep(v, i, c, LogAttempt(a), LoopHead);
      }
    }
  }

  /** In every world of every run the rows at the loop head can be drained. */
  lemma InvDrainable(w: World)
    requires Inv(w)
    ensures Drainable(w.db.rows)
  {
    assert RowOk(w, 0);
    forall i | 0 <= i < |w.db.rows| && w.db.rows[i].status.RollbackPending?
      ensures IndexOf(w.db.rows, BaseString(w.db.rows[i])) < i
    {
      assert RowOk(w, i);
    }
  }

  /** After k steps of a pass the table and the link are those of a pass cut off there. */
  lemma CutOffAlone(w: World, i: nat, c: Choice, k: nat)
    requires Inv(w) && At(w, i, Supervisor(Main(Head))) && c.ok && k <= 5
    requires LatestWithStatus(w.db.rows, RollbackPending).Some?
    ensures Drainable(w.db.rows)
    ensures var w' := Alone(w, i, c, k);
            && i < |w'.procs| && w'.procs[i].Supervisor? && w'.root == w.root
            && LocalOf(w') == CutOff(LocalOf(w), PointAfter(k), c.now)
  {
    InvDrainable(w);
    hide Inv, Alone, Drainable;
    var j := LatestWithStatus(w.db.rows, RollbackPending).value;
    var a := w.db.rows[j];
    BaseThere(w, j);
    var target := w.db.rows[IndexOf(w.db.rows, BaseString(a))];
    if k <= 3 {
      FirstSteps(w, i, c, a, target, k);
    } else {
      LastSteps(w, i, c, a, target, k);
    }
  }

  lemma BaseThere(w: World, j: nat)
    requires Drainable(w.db.rows) && j < |w.db.rows| && w.db.rows[j].status.RollbackPending?
    ensures Has(w.db.rows, BaseString(w.db.rows[j]))
  {
  }

  /**
   The machine's supervisor begins a pass, is killed after k of its steps and started again: when the new
   one comes to the loop head, the table and the link are those after a killed pass of the drain.
   */
  lemma KilledPassInMachine(w: World, i: nat, c: Choice, k: nat, start: Action, cleanedAt: int)
      returns (acts: seq<Action>, j: nat)
    requires Inv(w) && At(w, i, Supervisor(Main(Head))) && c.ok && k <= 5 && IsStart(start)
    requires LatestWithStatus(w.db.rows, RollbackPending).Some?
    ensures Drainable(w.db.rows)
    ensures var w' := Execute(w, acts);
            && At(w', j, Supervisor(Main(Head))) && Inv(w') && w'.root == w.root
            && LocalOf(w') == After(LocalOf(w), Killed(PointAfter(k), c.now, start.StartContainer?, cleanedAt),
                                    BinPath(w.root, BOOTSTRAP))
  {
    hide Inv, Step, CutOff, BinPath, Drainable, Cleaned;
    CutOffAlone(w, i, c, k);
    AloneIsExecute(w, i, c, k);
    var v := Alone(w, i, c, k);
    InvExecute(w, Times(k, Run(i, c)));
    var rest := RestartReachesHead(v, i, start, c.(now := cleanedAt));
    acts := Times(k, Run(i, c)) + rest;
    j := |v.procs|;
    ExecuteConcat(w, Times(k, Run(i, c)), rest);
    InvExecute(w, acts);
  }

  /** A whole pass in the machine. */
  lemma WholePassInMachine(w: World, i: nat, c: Choice) returns (acts: seq<Action>)
    requires Inv(w) && At(w, i, Supervisor(Main(Head))) && c.ok
    requires LatestWithStatus(w.db.rows, RollbackPending).Some?
    ensures Drainable(w.db.rows)
    ensures var w' := Execute(w, acts);
            && At(w', i, Supervisor(Main(Head))) && Inv(w') && w'.root == w.root
            && LocalOf(w') == After(LocalOf(w), Whole(c.now), BinPath(w.root, BOOTSTRAP))
  {
    InvDrainable(w);
    hide Inv, Step, Drainable, Sup.PendingOutcome;
    CountZero(w.db.rows);
    Sup.PendingIsDrainStep(w.db, w.link, FilesOf(c), c.now);
    var n := PendingAlone(w, i, c);
    acts := Times(n, Run(i, c));
    AloneIsExecute(w, i, c, n);
    InvExecute(w, acts);
    RootExecute(w, acts);
  }

  lemma {:induction false} RootExecute(w: World, acts: seq<Action>)
    ensures Execute(w, acts).root == w.root
  {
    hide Step;
    if acts != [] {
      RootExecute(w, acts[..|acts| - 1]);
      RootStays(Execute(w, acts[..|acts| - 1]), acts[|acts| - 1]);
    }
  }

  /** Every pass of the sequence finds something pending. */
  ghost predicate AllBusy(s: Local, passes: seq<Pass>, bootstrap: string)
    requires Drainable(s.rows)
    decreases |passes|
  {
    passes == [] ||
    (PassKeeps(s, passes[0], bootstrap);
     PendingCount(s.rows) > 0 && AllBusy(After(s, passes[0], bootstrap), passes[1..], bootstrap))
  }

  /** Any pass in the machine. */
  lemma PassInMachine(w: World, i: nat, c: Choice, pass: Pass) returns (acts: seq<Action>, j: nat)
    requires Inv(w) && At(w, i, Supervisor(Main(Head))) && c.ok
    requires LatestWithStatus(w.db.rows, RollbackPending).Some?
    ensures Drainable(w.db.rows)
    ensures var w' := Execute(w, acts);
            && At(w', j, Supervisor(Main(Head))) && Inv(w') && w'.root == w.root
            && LocalOf(w') == After(LocalOf(w), pass, BinPath(w.root, BOOTSTRAP))
  {
    hide Inv, Execute, Step, BinPath, After, Drainable, LatestWithStatus;
    match pass {
      case Whole(now) =>
        acts := WholePassInMachine(w, i, c.(now := now));
        j := i;
      case Killed(point, now, container, cleanedAt) =>
        var k := if point.BeforeSwitch? then 2 else if point.BeforeMark? then 3 else 4;
        var start := if container then StartContainer(c.digest) else StartSupervisor;
        acts, j := KilledPassInMachine(w, i, c.(now := now), k, start, cleanedAt);
    }
  }

  /**
   Every sequence of passes, killed or not, is what the machine can do from the loop head: some steps,
   kills and starts lead to a loop head with exactly that table and link.
   */
  lemma {:induction false} PassesInMachine(w: World, i: nat, c: Choice, passes: seq<Pass>)
      returns (acts: seq<Action>, j: nat)
    requires Inv(w) && At(w, i, Supervisor(Main(Head))) && c.ok && Drainable(w.db.rows)
    requires AllBusy(LocalOf(w), passes, BinPath(w.root, BOOTSTRAP))
    ensures var w' := Execute(w, acts);
            At(w', j, Supervisor(Main(Head))) && LocalOf(w') == Passes(LocalOf(w), passes, BinPath(w.root, BOOTSTRAP))
    decreases |passes|
  {
    hide Inv, Step, BinPath, After, Drainable, PendingCount;
    if passes == [] {
      acts, j := [], i;
      assert Execute(w, []) == w;
    } else {
      CountZero(w.db.rows);
      var first, k := PassInMachine(w, i, c, passes[0]);
      PassKeeps(LocalOf(w), passes[0], BinPath(w.root, BOOTSTRAP));
      var rest;
      rest, j := PassesInMachine(Execute(w, first), k, c, passes[1..]);
      acts := first + rest;
      ExecuteConcat(w, first, rest);
    }
  }
}

/**
 What the self-update protocol guarantees after every run: any interleaving of any number of
 supervisors, watchers and workers, with any process killed between any two of its steps.
 */
module UpdateSafety {
  import opened Options
  import opened ArtifactStatus
  import opened ArtifactTable
  import opened UpdateProtocol
  import opened UpdateInvariant
  import opened UpdateRuns
  import opened UpdateSteps
  import RollbackDrain

  // ------------------------------------------------------ the active artifact

  /** The events an artifact must have behind it before it may run. */
  const VETTING: seq<Kind> :=
    [TxnCreatedEvent, BuildStartedEvent, TestStartedEvent, SelfCheckStartedEvent, StagedEvent, ApprovedEvent]

  /**
   The active link always points at the binary of exactly one row: bootstrap, or a row that was built,
   tested, self-checked, staged, approved and taken for deployment, in this order. In the second case the
   row records a digest, and as long as nobody but builds has written files, the file under the link
   hashes to it.
   */
  lemma ActiveArtifactIsVetted(w0: World, acts: seq<Action>) returns (i: nat)
    requires Initial(w0)
    ensures var w := Execute(w0, acts);
            && i < |w.db.rows|
            && w.link == w.db.rows[i].binPath
            && (forall j :: 0 <= j < |w.db.rows| && w.db.rows[j].binPath == w.link ==> j == i)
            && (i == 0 ==> w.db.rows[i].txId == BOOTSTRAP)
            && (i > 0 ==>
                  && Released(w.db.rows[i].status)
                  && VETTING <= Trail(w.db.log, w.db.rows[i].txId)
                  && w.db.rows[i].sha256.Some?
                  && (!w.tampered ==> w.link in w.disk && w.disk[w.link] == w.db.rows[i].sha256.value))
  {
    var w := Execute(w0, acts);
    InvAlways(w0, acts);
    i :| 0 <= i < |w.db.rows| && w.link == w.db.rows[i].binPath && Vetted(w, i);
    assert RowOk(w, i);
    ReleasedWasVetted(w, i);
    forall j | 0 <= j < |w.db.rows| && w.db.rows[j].binPath == w.link
      ensures j == i
    {
      assert RowOk(w, j);
      BinPathInjective(w.root, w.db.rows[j].txId, w.db.rows[i].txId);
      IndexUnique(w.db.rows, j);
      IndexUnique(w.db.rows, i);
    }
  }

  /**
   Every artifact that has been handed to the tests, whatever became of it later, records the digest of its
   binary, and as long as nobody but builds has written files, the binary is there and has it.
   */
  lemma TestedBinaryIsRecorded(w0: World, acts: seq<Action>, i: nat)
    requires Initial(w0) && i < |Execute(w0, acts).db.rows|
    requires var row := Execute(w0, acts).db.rows[i]; row.txId != BOOTSTRAP && !BeforeTests(row.status)
    ensures var w := Execute(w0, acts);
            var row := w.db.rows[i];
            && row.sha256.Some? && IsDigest(row.sha256.value)
            && (!w.tampered ==> row.binPath in w.disk && w.disk[row.binPath] == row.sha256.value)
  {
    InvAlways(w0, acts);
    assert RowOk(Execute(w0, acts), i);
  }

  lemma ReleasedWasVetted(w: World, i: nat)
    requires i < |w.db.rows| && RowOk(w, i)
    ensures i > 0 && Released(w.db.rows[i].status) ==> VETTING <= Trail(w.db.log, w.db.rows[i].txId)
  {
  }

  /** After `k` actions process `p` is about to verify `a`, and the file has the digest `a` records. */
  ghost predicate VerifiesAfter(w0: World, acts: seq<Action>, k: nat, p: nat, a: Row)
    requires k <= |acts|
  {
    var w := Execute(w0, acts[..k]);
    && p < |w.procs| && w.procs[p] == Supervisor(Deploy(Verify(a)))
    && a.sha256.Some? && a.binPath in w.disk && w.disk[a.binPath] == a.sha256.value
  }

  /**
   Even when files are tampered with, a supervisor that is about to switch to an artifact has found the
   file under its path to have the digest that the artifact's row recorded and still records.
   */
  lemma {:induction false} DeploySwitchWasVerified(w0: World, acts: seq<Action>, p: nat, a: Row) returns (k: nat)
    requires Initial(w0)
    requires p < |Execute(w0, acts).procs| && Execute(w0, acts).procs[p] == Supervisor(Deploy(SwitchTo(a)))
    ensures k < |acts| && VerifiesAfter(w0, acts, k, p, a)
    ensures var w := Execute(w0, acts);
            SnapReleased(w, a) && w.db.rows[IndexOf(w.db.rows, a.txId)].sha256 == a.sha256
  {
    hide Step, Inv, Initial, VerifiesAfter, SnapReleased;
    InvAlways(w0, acts);
    SwitcherHoldsDigest(Execute(w0, acts), p, a);
    NobodyAtFirst(w0);
    var init := acts[..|acts| - 1];
    var before := Execute(w0, init);
    if p < |before.procs| && before.procs[p] == Supervisor(Deploy(SwitchTo(a))) {
      k := DeploySwitchWasVerified(w0, init, p, a);
      VerifiedEarlier(w0, acts, k, p, a);
    } else {
      k := |acts| - 1;
      InvAlways(w0, init);
      SwitchFollowsVerify(before, acts[k], p, a);
      VerifiesNow(w0, acts, k, p, a);
    }
  }

  lemma VerifiedEarlier(w0: World, acts: seq<Action>, k: nat, p: nat, a: Row)
    requires k < |acts| && VerifiesAfter(w0, acts[..|acts| - 1], k, p, a)
    ensures VerifiesAfter(w0, acts, k, p, a)
  {
    assert acts[..|acts| - 1][..k] == acts[..k];
  }

  lemma VerifiesNow(w0: World, acts: seq<Action>, k: nat, p: nat, a: Row)
    requires k <= |acts|
    requires var w := Execute(w0, acts[..k]);
             && p < |w.procs| && w.procs[p] == Supervisor(Deploy(Verify(a)))
             && a.sha256.Some? && a.binPath in w.disk && w.disk[a.binPath] == a.sha256.value
    ensures VerifiesAfter(w0, acts, k, p, a)
  {
  }

  lemma NobodyAtFirst(w0: World)
    requires Initial(w0)
    ensures Execute(w0, []).procs == []
  {
  }

  lemma SwitcherHoldsDigest(w: World, p: nat, a: Row)
    requires Inv(w) && p < |w.procs| && w.procs[p] == Supervisor(Deploy(SwitchTo(a)))
    ensures SnapReleased(w, a) && w.db.rows[IndexOf(w.db.rows, a.txId)].sha256 == a.sha256
  {
    assert ProcOk(w, w.procs[p]);
  }

  /** The only step into the switch is a verification that found the digest. */
  lemma SwitchFollowsVerify(w: World, act: Action, p: nat, a: Row)
    requires Inv(w) && p < |Step(w, act).procs| && Step(w, act).procs[p] == Supervisor(Deploy(SwitchTo(a)))
    requires p < |w.procs| ==> w.procs[p] != Supervisor(Deploy(SwitchTo(a)))
    ensures p < |w.procs| && w.procs[p] == Supervisor(Deploy(Verify(a)))
    ensures a.sha256.Some? && a.binPath in w.disk && w.disk[a.binPath] == a.sha256.value
  {
    hide Inv, Step, NextSupervisor, NextWatcher, NextWorker;
    ProcMoves(w, act, p);
    IntoSwitch(w, w.procs[p], act.c, a);
    VerifierHoldsDigest(w, p, a);
    DigestUntrimmed(a.sha256.value);
  }

  lemma VerifierHoldsDigest(w: World, p: nat, a: Row)
    requires Inv(w) && p < |w.procs| && w.procs[p] == Supervisor(Deploy(Verify(a)))
    ensures a.sha256.Some? && IsDigest(a.sha256.value)
  {
    assert ProcOk(w, w.procs[p]);
  }

  lemma IntoSwitch(w: World, p: Proc, c: Choice, a: Row)
    requires Next(w, p, c).next == Supervisor(Deploy(SwitchTo(a))) && p != Supervisor(Deploy(SwitchTo(a)))
    ensures p == Supervisor(Deploy(Verify(a)))
    ensures a.sha256.Some? && NullIfEmpty(a.sha256.value).Some? ==>
              a.binPath in w.disk && w.disk[a.binPath] == a.sha256.value
  {
    hide IndexOf, Cas, Insert, NullIfEmpty, Matches, LatestWithStatus, FirstApproved, Cleaned;
  }

  // ---------------------------------------------------------- log and table

  /** How often an event of this type was logged for a transaction. */
  function CountEvents(log: seq<Event>, kind: Kind, tx: string): nat {
    if |log| == 0 then 0
    else CountEvents(log[..|log| - 1], kind, tx) + (if log[|log| - 1] == Event(kind, tx) then 1 else 0)
  }

  lemma {:induction false} TrailCounts(log: seq<Event>, kind: Kind, tx: string)
    requires Tracked(kind)
    ensures CountEvents(log, kind, tx) == multiset(Trail(log, tx))[kind]
  {
    if |log| > 0 {
      TrailCounts(log[..|log| - 1], kind, tx);
    }
  }

  /** The transactional events of the success path and of cancellation. */
  predicate SuccessKind(kind: Kind) {
    || kind.TxnCreatedEvent? || kind.BuildStartedEvent? || kind.TestStartedEvent?
    || kind.SelfCheckStartedEvent? || kind.StagedEvent? || kind.ApprovedEvent? || kind.CancelledEvent?
  }

  lemma SpineOnce(s: Status, kind: Kind)
    ensures multiset(Spine(s))[kind] == if kind in Spine(s) then 1 else 0
  {
    hide Spine;
    forall i, j | 0 <= i < j < |Spine(s)|
      ensures Spine(s)[i] != Spine(s)[j]
    {
      SpineDistinct(s, i, j);
    }
    DistinctOnce(Spine(s), kind);
  }

  /** The place of a success-path event in the pipeline. */
  function Place(kind: Kind): nat {
    match kind
    case TxnCreatedEvent => 0
    case BuildStartedEvent => 1
    case TestStartedEvent => 2
    case SelfCheckStartedEvent => 3
    case StagedEvent => 4
    case _ => 5
  }

  lemma SpineInOrder(s: Status, i: nat)
    requires i < |Spine(s)|
    ensures Place(Spine(s)[i]) == i
  {
  }

  lemma SpineDistinct(s: Status, i: nat, j: nat)
    requires i < j < |Spine(s)|
    ensures Spine(s)[i] != Spine(s)[j]
  {
    hide Spine, Place;
    SpineInOrder(s, i);
    SpineInOrder(s, j);
  }

  lemma {:induction false} DistinctOnce(kinds: seq<Kind>, kind: Kind)
    requires forall i, j :: 0 <= i < j < |kinds| ==> kinds[i] != kinds[j]
    ensures multiset(kinds)[kind] == if kind in kinds then 1 else 0
  {
    if kinds != [] {
      DistinctOnce(kinds[1..], kind);
      assert kinds == [kinds[0]] + kinds[1..];
    }
  }

  lemma SpineCounts(trail: seq<Kind>, s: Status, kind: Kind)
    requires SuccessKind(kind) && TrailFits(trail, s)
    ensures multiset(trail)[kind] == if kind in Spine(s) then 1 else 0
  {
    hide Spine;
    SpineOnce(s, kind);
  }

  /**
   Log and table agree. Bootstrap has no transactional events. For every other row the success-path
   events of its transaction stand in the log exactly once if the row's status lies on or past the edge
   that writes them and never otherwise, in pipeline order, followed at most by the one event that can
   end the path; a transaction that has no row has no transactional event.
   */
  lemma LogAgreesWithTable(w0: World, acts: seq<Action>, i: nat, kind: Kind)
    requires Initial(w0) && SuccessKind(kind)
    ensures var w := Execute(w0, acts);
            && (0 < i < |w.db.rows| ==>
                  && TrailFits(Trail(w.db.log, w.db.rows[i].txId), w.db.rows[i].status)
                  && CountEvents(w.db.log, kind, w.db.rows[i].txId)
                     == (if kind in Spine(w.db.rows[i].status) then 1 else 0))
            && (0 == i < |w.db.rows| ==> CountEvents(w.db.log, kind, w.db.rows[i].txId) == 0)
            && (forall tx :: !Has(w.db.rows, tx) ==> CountEvents(w.db.log, kind, tx) == 0)
  {
    var w := Execute(w0, acts);
    InvAlways(w0, acts);
    if i < |w.db.rows| {
      assert RowOk(w, i);
      TrailCounts(w.db.log, kind, w.db.rows[i].txId);
      if 0 < i {
        SpineCounts(Trail(w.db.log, w.db.rows[i].txId), w.db.rows[i].status, kind);
      }
    }
    forall tx | !Has(w.db.rows, tx)
      ensures CountEvents(w.db.log, kind, tx) == 0
    {
      TrailCounts(w.db.log, kind, tx);
    }
  }

  /** An artifact is never both approved and cancelled, whoever asked for what and how often. */
  lemma ApprovedOrCancelled(w0: World, acts: seq<Action>, tx: string)
    requires Initial(w0)
    ensures CountEvents(Execute(w0, acts).db.log, ApprovedEvent, tx)
            + CountEvents(Execute(w0, acts).db.log, CancelledEvent, tx) <= 1
  {
    var w := Execute(w0, acts);
    var i := IndexOf(w.db.rows, tx);
    LogAgreesWithTable(w0, acts, i, ApprovedEvent);
    LogAgreesWithTable(w0, acts, i, CancelledEvent);
    if i < |w.db.rows| {
      SpineForks(w.db.rows[i].status);
    }
  }

  lemma SpineForks(s: Status)
    ensures !(ApprovedEvent in Spine(s) && CancelledEvent in Spine(s))
  {
  }

  // -------------------------------------------------------- status changes

  /** Every status write of every action, guarded or not, is a move of the transition table. */
  lemma StepFollowsTransitionTable(w: World, act: Action)
    requires Inv(w)
    ensures Grows(w, Step(w, act))
  {
    hide StoreOk;
    if act.Run? && act.i < |w.procs| {
      assert ProcOk(w, w.procs[act.i]);
      NextAllowed(w, w.procs[act.i], act.c);
      ApplyKeeps(w, Next(w, w.procs[act.i], act.c).stmt, act.c.now);
    }
  }

  /** A row that exists keeps its status or rises in rank. */
  lemma RankRises(w: World, act: Action, i: nat)
    requires Inv(w) && i < |w.db.rows|
    ensures i < |Step(w, act).db.rows|
    ensures var before, after := w.db.rows[i].status, Step(w, act).db.rows[i].status;
            after == before || Rank(before) < Rank(after)
  {
    hide Step, Inv;
    StepFollowsTransitionTable(w, act);
    assert SameIdentity(w.db.rows[i], Step(w, act).db.rows[i]);
  }

  /** The number of actions of a run that changed the status of row `i`. */
  function StatusChanges(w: World, acts: seq<Action>, i: nat): nat {
    if |acts| == 0 then 0
    else
      var before := Execute(w, acts[..|acts| - 1]);
      var after := Step(before, acts[|acts| - 1]);
      StatusChanges(w, acts[..|acts| - 1], i) +
      if i < |before.db.rows| && i < |after.db.rows| && after.db.rows[i].status != before.db.rows[i].status
      then 1 else 0
  }

  /** The number of actions of a run that moved row `i` into a status. */
  function Entries(w: World, acts: seq<Action>, i: nat, to: Status): nat {
    if |acts| == 0 then 0
    else
      var before := Execute(w, acts[..|acts| - 1]);
      var after := Step(before, acts[|acts| - 1]);
      Entries(w, acts[..|acts| - 1], i, to) +
      if && i < |before.db.rows| && i < |after.db.rows|
         && after.db.rows[i].status == to && before.db.rows[i].status != to
      then 1 else 0
  }

  /** A row changes status at most as often as its status has risen in rank, hence at most ten times. */
  lemma {:induction false} AtMostTenStatusChanges(w0: World, acts: seq<Action>, i: nat)
    requires Initial(w0)
    ensures StatusChanges(w0, acts, i)
            <= (if i < |Execute(w0, acts).db.rows| then Rank(Execute(w0, acts).db.rows[i].status) else 0)
    ensures StatusChanges(w0, acts, i) <= 10
  {
    hide Step, Inv, Initial;
    if |acts| > 0 {
      var before := Execute(w0, acts[..|acts| - 1]);
      var after := Step(before, acts[|acts| - 1]);
      AtMostTenStatusChanges(w0, acts[..|acts| - 1], i);
      InvAlways(w0, acts[..|acts| - 1]);
      if i < |before.db.rows| {
        RankRises(before, acts[|acts| - 1], i);
      }
    }
  }

  /**
   A row enters each status at most once: an artifact is approved at most once, deployed at most once,
   promoted at most once and rolled back at most once, however often that is asked for.
   */
  lemma {:induction false} EachStatusEnteredOnce(w0: World, acts: seq<Action>, i: nat, to: Status)
    requires Initial(w0)
    ensures Entries(w0, acts, i, to) <= 1
    ensures Entries(w0, acts, i, to) == 1 ==>
              i < |Execute(w0, acts).db.rows| && Rank(to) <= Rank(Execute(w0, acts).db.rows[i].status)
  {
    hide Step, Inv, Initial;
    if |acts| > 0 {
      var before := Execute(w0, acts[..|acts| - 1]);
      var after := Step(before, acts[|acts| - 1]);
      EachStatusEnteredOnce(w0, acts[..|acts| - 1], i, to);
      InvAlways(w0, acts[..|acts| - 1]);
      if i < |before.db.rows| {
        RankRises(before, acts[|acts| - 1], i);
      }
    }
  }

  // ---------------------------------------------------------- the base chain

  /** The rows a sequence of rollbacks from row `i` would go through, by position. */
  ghost predicate BasesGoBack(rows: seq<Row>) {
    forall i :: 0 < i < |rows| ==> IndexOf(rows, BaseString(rows[i])) < i
  }

  function BaseChain(rows: seq<Row>, i: nat): (chain: seq<nat>)
    requires BasesGoBack(rows) && i < |rows|
    ensures chain != [] && chain[0] == i && chain[|chain| - 1] == 0 && |chain| <= i + 1
    ensures forall k :: 0 <= k < |chain| ==> chain[k] < |rows|
    ensures forall k :: 0 <= k < |chain| - 1 ==>
              && chain[k + 1] < chain[k]
              && rows[chain[k + 1]].txId == BaseString(rows[chain[k]])
  {
    if i == 0 then [0] else [i] + BaseChain(rows, IndexOf(rows, BaseString(rows[i])))
  }

  /**
   Bootstrap stays promoted and has no base; from every row the chain of bases goes strictly back in the
   table and ends at bootstrap, through rows that have all been promoted.
   */
  lemma BaseChainEndsAtBootstrap(w0: World, acts: seq<Action>, i: nat)
    requires Initial(w0) && i < |Execute(w0, acts).db.rows|
    ensures var w := Execute(w0, acts);
            && w.db.rows[0].txId == BOOTSTRAP && w.db.rows[0].status.Promoted? && !HasBase(w.db.rows[0])
            && BasesGoBack(w.db.rows)
            && (forall k :: 0 < k < |BaseChain(w.db.rows, i)| ==>
                  && PromotedOrLater(w.db.rows[BaseChain(w.db.rows, i)[k]].status)
                  && w.db.rows[BaseChain(w.db.rows, i)[k]].txId in w.promotedEver)
  {
    var w := Execute(w0, acts);
    InvAlways(w0, acts);
    assert RowOk(w, 0);
    forall j | 0 < j < |w.db.rows|
      ensures IndexOf(w.db.rows, BaseString(w.db.rows[j])) < j
    {
      assert RowOk(w, j);
    }
    var chain := BaseChain(w.db.rows, i);
    forall k | 0 < k < |chain|
      ensures PromotedOrLater(w.db.rows[chain[k]].status) && w.db.rows[chain[k]].txId in w.promotedEver
    {
      var j := chain[k - 1];
      assert chain[k] < j;
      assert RowOk(w, j) && PromotedRecord(w, BaseString(w.db.rows[j]));
      IndexUnique(w.db.rows, chain[k]);
    }
  }

  /** After the first `k` actions of the run, the transaction is promoted. */
  ghost predicate PromotedAfter(w0: World, acts: seq<Action>, k: nat, tx: string)
    requires k <= |acts|
  {
    tx in PromotedTxs(Execute(w0, acts[..k]).db.rows)
  }

  lemma {:induction false} PromotedOnce(w0: World, acts: seq<Action>, tx: string) returns (k: nat)
    requires Initial(w0) && tx in Execute(w0, acts).promotedEver
    ensures k <= |acts| && PromotedAfter(w0, acts, k, tx)
  {
    k := |acts|;
    assert acts[..k] == acts;
    if |acts| == 0 {
      assert w0.db.rows[0].txId in PromotedTxs(w0.db.rows);
    } else if !PromotedAfter(w0, acts, k, tx) {
      var init := acts[..k - 1];
      InvAlways(w0, init);
      PromotedEverGrows(Execute(w0, init), acts[k - 1]);
      k := PromotedOnce(w0, init, tx);
      assert init[..k] == acts[..k];
    }
  }

  lemma {:induction false} PromotedForEver(w0: World, acts: seq<Action>, k: nat, tx: string)
    requires Initial(w0) && k <= |acts| && PromotedAfter(w0, acts, k, tx)
    ensures tx in Execute(w0, acts).promotedEver
  {
    if k == |acts| {
      assert acts[..k] == acts;
      InvAlways(w0, acts);
      PromotedIsRecorded(Execute(w0, acts));
    } else {
      var init := acts[..|acts| - 1];
      assert init[..k] == acts[..k];
      PromotedForEver(w0, init, k, tx);
      InvAlways(w0, init);
      PromotedEverGrows(Execute(w0, init), acts[|acts| - 1]);
    }
  }

  /** The history variable means what it says: some world of the run had the transaction promoted. */
  lemma PromotedEverIsHistory(w0: World, acts: seq<Action>, tx: string)
    requires Initial(w0)
    ensures tx in Execute(w0, acts).promotedEver <==> exists k | 0 <= k <= |acts| :: PromotedAfter(w0, acts, k, tx)
  {
    hide PromotedAfter, Initial;
    if tx in Execute(w0, acts).promotedEver {
      var k := PromotedOnce(w0, acts, tx);
    }
    forall k | 0 <= k <= |acts| && PromotedAfter(w0, acts, k, tx)
      ensures tx in Execute(w0, acts).promotedEver
    {
      PromotedForEver(w0, acts, k, tx);
    }
  }

  lemma PromotedIsRecorded(w: World)
    requires Inv(w)
    ensures PromotedTxs(w.db.rows) <= w.promotedEver
  {
    forall i | 0 <= i < |w.db.rows| && w.db.rows[i].status.Promoted?
      ensures w.db.rows[i].txId in w.promotedEver
    {
      assert RowOk(w, i);
    }
  }

  lemma PromotedEverGrows(w: World, act: Action)
    requires Inv(w)
    ensures var w' := Step(w, act);
            w.promotedEver <= w'.promotedEver <= w.promotedEver + PromotedTxs(w'.db.rows)
  {
    hide NextMain, NextRollback, NextDeploy, NextPromote, NextCommand, NextStage, Insert, Cas, Inv;
  }

  /** There is always a promoted artifact to build on, and a rollback always finds its target. */
  lemma RollbackTargetAlwaysFound(w0: World, acts: seq<Action>, p: nat)
    requires Initial(w0)
    ensures var w := Execute(w0, acts);
            && LatestPromotedTx(w.db.rows) != ""
            && (p < |w.procs|
                && w.procs[p].Supervisor? && w.procs[p].sup.Rollback? && w.procs[p].sup.rollback.Lookup? ==>
                  var a := w.procs[p].sup.rollback.a;
                  && Has(w.db.rows, BaseString(a))
                  && PromotedOrLater(w.db.rows[IndexOf(w.db.rows, BaseString(a))].status))
            && (p < |w.procs| ==>
                  !(w.procs[p].Supervisor? && w.procs[p].sup.Main? && w.procs[p].sup.main.EnsureInsert?))
  {
    var w := Execute(w0, acts);
    InvAlways(w0, acts);
    SomePromoted(w);
    if p < |w.procs| {
      assert ProcOk(w, w.procs[p]);
      if w.procs[p].Supervisor? && w.procs[p].sup.Rollback? && w.procs[p].sup.rollback.Lookup? {
        BaseFound(w, w.procs[p].sup.rollback.a);
      }
    }
  }

  /** After every run the pending rollbacks can be drained, and the drain ends at none of their binaries. */
  lemma EveryRunIsDrainable(w0: World, acts: seq<Action>)
    requires Initial(w0)
    ensures var w := Execute(w0, acts);
            && RollbackDrain.Drainable(w.db.rows)
            && forall i :: 0 <= i < |w.db.rows| && w.db.rows[i].status.RollbackPending? ==>
                 RollbackDrain.FinalLink(RollbackDrain.Local(w.db.rows, w.link)) != w.db.rows[i].binPath
  {
    var w := Execute(w0, acts);
    InvAlways(w0, acts);
    assert RowOk(w, 0);
    forall i | 0 < i < |w.db.rows|
      ensures IndexOf(w.db.rows, BaseString(w.db.rows[i])) < i
    {
      assert RowOk(w, i);
    }
    BinariesDiffer(w);
    forall i | 0 <= i < |w.db.rows| && w.db.rows[i].status.RollbackPending?
      ensures RollbackDrain.FinalLink(RollbackDrain.Local(w.db.rows, w.link)) != w.db.rows[i].binPath
    {
      RollbackDrain.FinalLinkIsNoneOfThem(RollbackDrain.Local(w.db.rows, w.link), i);
    }
  }

  lemma BinariesDiffer(w: World)
    requires StoreOk(w)
    ensures forall j, k :: 0 <= j < k < |w.db.rows| ==> w.db.rows[j].binPath != w.db.rows[k].binPath
  {
    forall j, k | 0 <= j < k < |w.db.rows|
      ensures w.db.rows[j].binPath != w.db.rows[k].binPath
    {
      BinOf(w, j);
      BinOf(w, k);
      if w.db.rows[j].binPath == w.db.rows[k].binPath {
        BinPathInjective(w.root, w.db.rows[j].txId, w.db.rows[k].txId);
      }
    }
  }
}

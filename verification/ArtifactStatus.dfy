/** The status column of the artifacts table and the moves the repository allows on it. */
module ArtifactStatus {
  datatype Status =
    | Created
    | Building
    | BuildFailed
    | Testing
    | TestFailed
    | SelfChecking
    | SelfCheckFailed
    | Staged
    | Approved
    | Deploying
    | DeployedUnstable
    | Promoted
    | RollbackPending
    | RolledBack
    | DeployFailed
    | Cancelled

  /** The transition table. */
  predicate IsValidTransition(from: Status, to: Status) {
    match from
    case Created => to.Building?
    case Building => to.Testing? || to.BuildFailed?
    case Testing => to.SelfChecking? || to.TestFailed?
    case SelfChecking => to.Staged? || to.SelfCheckFailed?
    case Staged => to.Approved? || to.Cancelled?
    case Approved => to.Deploying?
    case Deploying => to.DeployedUnstable? || to.DeployFailed?
    case DeployedUnstable => to.Promoted? || to.RollbackPending?
    case Promoted => to.RollbackPending?
    case RollbackPending => to.RolledBack?
    case _ => false
  }

  /** The moves, one by one. */
  lemma Transitions(from: Status, to: Status)
    ensures IsValidTransition(from, to)
            <==> (from, to) in {(Created, Building), (Building, Testing), (Building, BuildFailed),
                                (Testing, SelfChecking), (Testing, TestFailed),
                                (SelfChecking, Staged), (SelfChecking, SelfCheckFailed),
                                (Staged, Approved), (Staged, Cancelled), (Approved, Deploying),
                                (Deploying, DeployedUnstable), (Deploying, DeployFailed),
                                (DeployedUnstable, Promoted), (DeployedUnstable, RollbackPending),
                                (Promoted, RollbackPending), (RollbackPending, RolledBack)}
  {
  }

  /** The length of the longest chain of moves from `Created` to a status. */
  function Rank(s: Status): nat {
    match s
    case Created => 0
    case Building => 1
    case BuildFailed => 2
    case Testing => 2
    case TestFailed => 3
    case SelfChecking => 3
    case SelfCheckFailed => 4
    case Staged => 4
    case Cancelled => 5
    case Approved => 5
    case Deploying => 6
    case DeployedUnstable => 7
    case DeployFailed => 7
    case Promoted => 8
    case RollbackPending => 9
    case RolledBack => 10
  }

  /** The pipeline has not yet handed the binary to the tests. */
  predicate BeforeTests(s: Status) {
    s.Created? || s.Building? || s.BuildFailed?
  }

  /** The row has been approved and taken for deployment. */
  predicate Released(s: Status) {
    || s.Deploying? || s.DeployedUnstable? || s.Promoted?
    || s.RollbackPending? || s.RolledBack? || s.DeployFailed?
  }

  /** The statuses a promoted row can have later. */
  predicate PromotedOrLater(s: Status) {
    s.Promoted? || s.RollbackPending? || s.RolledBack?
  }

  /** What startup cleanup does to an interrupted status. */
  function CleanedStatus(s: Status): Status {
    match s
    case Building => BuildFailed
    case Testing => TestFailed
    case SelfChecking => SelfCheckFailed
    case Deploying => DeployFailed
    case _ => s
  }
}

/** The approval workflow the remote service enforces: which action moves a
    transaction out of which status, and which role may ask for it. The
    client never applies this table itself; the views' visibility rules are
    proved against it. */
module Lifecycle {
  import opened Domain

  /** The status an action leads to, when the action is valid from `s`. */
  function Next(s: Status, a: Action): (r: Option<Status>)
    ensures r.Some? ==> r.value != s
  {
    match (s, a)
    case (Draft, Submit) => Some(PendingApproval)
    case (PendingApproval, Approve) => Some(Approved)
    case (PendingApproval, Reject) => Some(Rejected)
    case (Approved, Execute) => Some(Executed)
    case _ => None
  }

  /** The role allowed to ask for an action; `None` means any signed-in role. */
  function Actor(a: Action): Option<Role> {
    match a
    case Submit => Some(Operator)
    case Approve => Some(Approver)
    case Reject => Some(Approver)
    case Execute => None
  }

  /** The row `(s, a)` of the table exists and `r` may invoke it. */
  predicate Permitted(r: Role, s: Status, a: Action) {
    Next(s, a).Some? && (Actor(a).None? || Actor(a) == Some(r))
  }

  /** Statuses with no outgoing transition. */
  predicate Terminal(s: Status) {
    forall a: Action :: Next(s, a).None?
  }

  /** Rejected and Executed absorb; the other three statuses each have a way out. */
  lemma TerminalStatuses(s: Status)
    ensures Terminal(s) <==> s == Rejected || s == Executed
  {
    if s == Draft { assert Next(s, Submit).Some?; }
    if s == PendingApproval { assert Next(s, Approve).Some?; }
    if s == Approved { assert Next(s, Execute).Some?; }
  }
}

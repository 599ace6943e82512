/** The action switch of `PUT /maintenance/request`: which status each
    action sets and which side columns it writes. */
module Lifecycle {
  import opened Schema

  datatype Action = Approve | Reject | Complete | Discard

  /** The `action` string the handler's `switch` matches for each case. */
  function ActionName(a: Action): string
  {
    match a
    case Approve => "approve"
    case Reject => "reject"
    case Complete => "complete"
    case Discard => "discard"
  }

  /** Reads the `action` field; anything other than the four names is an
      invalid action. */
  function ParseAction(s: string): (r: Option<Action>)
    ensures r.Some? ==> ActionName(r.value) == s
    ensures r.None? ==> forall a :: ActionName(a) != s
  {
    if s == "approve" then Some(Approve)
    else if s == "reject" then Some(Reject)
    else if s == "complete" then Some(Complete)
    else if s == "discard" then Some(Discard)
    else None
  }

  /** Every action is recognised by its own name, so the switch loses none. */
  lemma ParseActionName(a: Action)
    ensures ParseAction(ActionName(a)) == Some(a)
  {
  }

  /** The optional body fields of a PUT. */
  datatype Changes = Changes(
    technicianId: Patch<string>,
    resolutionDetails: Patch<string>,
    discardReason: Patch<string>,
    maintenanceCharge: Patch<int>)

  /** The columns an action may write. */
  datatype Column =
    | StatusColumn
    | TechnicianIdColumn
    | ResolutionDetailsColumn
    | DiscardReasonColumn
    | ApprovalDateColumn
    | CompletionDateColumn
    | MaintenanceChargeColumn

  /** The status each action sets. */
  function TargetStatus(a: Action): Status
  {
    match a
    case Approve => Approved
    case Reject => Rejected
    case Complete => Completed
    case Discard => Discarded
  }

  /** The columns each action writes, as a table independent of the update. */
  function Writes(a: Action): set<Column>
  {
    match a
    case Approve => {StatusColumn, TechnicianIdColumn, ApprovalDateColumn}
    case Reject => {StatusColumn, DiscardReasonColumn}
    case Complete => {StatusColumn, ResolutionDetailsColumn, CompletionDateColumn, MaintenanceChargeColumn}
    case Discard => {StatusColumn, DiscardReasonColumn, CompletionDateColumn, MaintenanceChargeColumn}
  }

  /** Whether two rows agree on column `c`. */
  predicate SameColumn(r: Request, r': Request, c: Column)
  {
    match c
    case StatusColumn => r.status == r'.status
    case TechnicianIdColumn => r.technicianId == r'.technicianId
    case ResolutionDetailsColumn => r.resolutionDetails == r'.resolutionDetails
    case DiscardReasonColumn => r.discardReason == r'.discardReason
    case ApprovalDateColumn => r.approvalDate == r'.approvalDate
    case CompletionDateColumn => r.completionDate == r'.completionDate
    case MaintenanceChargeColumn => r.maintenanceCharge == r'.maintenanceCharge
  }

  /** The identity and the links of a request: no action touches them. */
  predicate SameIdentity(r: Request, r': Request)
  {
    r.id == r'.id && r.issueDescription == r'.issueDescription && r.govId == r'.govId
    && r.userId == r'.userId && r.itemId == r'.itemId
  }

  /** The row after `prisma.maintenanceRequest.update` for action `a` at
      time `now`. Body fields left out keep their column. */
  function Transition(r: Request, a: Action, c: Changes, now: nat): (r': Request)
    ensures r'.status == TargetStatus(a)
    ensures SameIdentity(r, r')
    ensures forall col :: col !in Writes(a) ==> SameColumn(r, r', col)
    ensures a.Approve? ==> r'.approvalDate == Some(now)
    ensures a.Complete? || a.Discard? ==> r'.completionDate == Some(now)
    ensures a.Approve? ==> r'.technicianId == Patched(c.technicianId, r.technicianId)
    ensures a.Reject? || a.Discard? ==> r'.discardReason == Patched(c.discardReason, r.discardReason)
    ensures a.Complete? ==> r'.resolutionDetails == Patched(c.resolutionDetails, r.resolutionDetails)
    ensures a.Complete? || a.Discard? ==> r'.maintenanceCharge == Patched(c.maintenanceCharge, r.maintenanceCharge)
  {
    match a
    case Approve =>
      r.(status := Approved,
         technicianId := Patched(c.technicianId, r.technicianId),
         approvalDate := Some(now))
    case Reject =>
      r.(status := Rejected,
         discardReason := Patched(c.discardReason, r.discardReason))
    case Complete =>
      r.(status := Completed,
         resolutionDetails := Patched(c.resolutionDetails, r.resolutionDetails),
         completionDate := Some(now),
         maintenanceCharge := Patched(c.maintenanceCharge, r.maintenanceCharge))
    case Discard =>
      r.(status := Discarded,
         discardReason := Patched(c.discardReason, r.discardReason),
         completionDate := Some(now),
         maintenanceCharge := Patched(c.maintenanceCharge, r.maintenanceCharge))
  }

  /** No current-status guard: the outcome of an action does not depend on
      the status the request had, so a discarded request can still be
      completed and an approved one approved again. */
  lemma NoStatusGuard(r: Request, s: Status, a: Action, c: Changes, now: nat)
    ensures Transition(r.(status := s), a, c, now) == Transition(r, a, c, now)
  {
  }

  /** Repeating an action with the same body and time changes nothing more. */
  lemma TransitionIdempotent(r: Request, a: Action, c: Changes, now: nat)
    ensures Transition(Transition(r, a, c, now), a, c, now) == Transition(r, a, c, now)
  {
  }
}

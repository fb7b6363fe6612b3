/** The detail page of one transaction: which transition buttons it offers,
    what it renders while loading or when nothing was found, the copy of its
    confirmation dialog, and the page state that fetching and acting update. */
module TransactionDetail {
  import opened Domain
  import opened Text
  import opened DialogCopy
  import Api
  import Lifecycle
  import AuthContext

  /** The transition buttons, in render order: Submit for an operator on a
      draft, Approve and Reject for an approver on a pending transaction,
      Execute on an approved one whoever looks at it. */
  function Actions(viewer: Option<Role>, s: Status): (acts: seq<Action>)
    ensures Execute in acts <==> s == Approved
    ensures viewer.None? ==> acts == if s == Approved then [Execute] else []
  {
    (if viewer == Some(Operator) && s == Draft then [Submit] else [])
    + (if viewer == Some(Approver) && s == PendingApproval then [Approve, Reject] else [])
    + (if s == Approved then [Execute] else [])
  }

  /** For a signed-in viewer the page offers exactly the workflow's permitted
      transitions. */
  lemma ActionsFollowLifecycle(r: Role, s: Status, a: Action)
    ensures a in Actions(Some(r), s) <==> Lifecycle.Permitted(r, s, a)
  {
  }

  /** A user whose role string is neither known role is treated as no user:
      the page offers only Execute, and only on an approved transaction. */
  lemma UnknownRoleSeesNoRoleActions(u: AuthContext.User, s: Status)
    requires u.role != "OPERATOR" && u.role != "APPROVER"
    ensures Actions(AuthContext.ViewerOf(Some(u)), s) == Actions(AuthContext.ViewerOf(None), s)
    ensures Actions(AuthContext.ViewerOf(Some(u)), s) == if s == Approved then [Execute] else []
  {
  }

  /** Without a user only Execute can show, and only on an approved
      transaction; terminal statuses show nothing to anyone. */
  lemma ActionsWithoutUserOrWhenTerminal(viewer: Option<Role>, s: Status, a: Action)
    ensures a in Actions(None, s) <==> a == Execute && s == Approved
    ensures s == Rejected || s == Executed ==> Actions(viewer, s) == []
  {
  }

  datatype Button = Button(action: Action, disabled: bool)

  /** The rendered buttons: every one is disabled while an action is in flight. */
  function Buttons(viewer: Option<Role>, s: Status, actionLoading: bool): (bs: seq<Button>)
    ensures |bs| == |Actions(viewer, s)|
    ensures forall i :: 0 <= i < |bs| ==> bs[i].action == Actions(viewer, s)[i]
    ensures forall i :: 0 <= i < |bs| ==> bs[i].disabled == actionLoading
  {
    var acts := Actions(viewer, s);
    seq(|acts|, i requires 0 <= i < |acts| => Button(acts[i], actionLoading))
  }

  /** What the page shows. */
  datatype Screen = Skeleton | NotFound | Detail(t: Transaction)

  /** Loading first, then not-found when there is no transaction, then the detail. */
  function ScreenOf(isLoading: bool, transaction: Option<Transaction>): (sc: Screen)
    ensures sc.Skeleton? <==> isLoading
    ensures sc.NotFound? <==> !isLoading && transaction.None?
    ensures sc.Detail? ==> transaction == Some(sc.t)
  {
    if isLoading then Skeleton
    else if transaction.None? then NotFound
    else Detail(transaction.value)
  }

  /** The dialog title for the chosen action. */
  function Title(kind: Option<Action>): (title: string)
    ensures kind.None? <==> title == ""
  {
    match kind
    case None => ""
    case Some(Approve) => "Approve Transaction"
    case Some(Reject) => "Reject Transaction"
    case Some(Submit) => "Submit for Approval"
    case Some(Execute) => "Execute Transaction"
  }

  /** The dialog description; `amount` is the formatted amount. Every one
      names the reference, only Reject warns that it cannot be undone, and
      Execute restates the amount. */
  function Description(kind: Option<Action>, reference: string, amount: string): (ps: seq<Piece>)
    ensures kind.Some? ==> Names(ps, reference)
    ensures Warns(ps) <==> kind == Some(Reject)
    ensures kind == Some(Execute) ==> Names(ps, amount)
    ensures kind.None? ==> ps == []
  {
    match kind
    case None => []
    case Some(Approve) => [Fixed("Are you sure you want to approve "), Value(reference), Fixed("?")]
    case Some(Reject) => [Fixed("Are you sure you want to reject "), Value(reference), Fixed("? "), Fixed(Irreversible)]
    case Some(Submit) => [Fixed("Submit "), Value(reference), Fixed(" for approval?")]
    case Some(Execute) =>
      [Fixed("Execute "), Value(reference), Fixed("? This will process the payment of "), Value(amount), Fixed(".")]
  }

  /** The rendered description contains the reference. */
  lemma DescriptionShowsReference(kind: Action, reference: string, amount: string)
    ensures Contains(Render(Description(Some(kind), reference, amount)), reference)
  {
    NamedIsRendered(Description(Some(kind), reference, amount), reference);
  }

  /** The confirm button's caption. */
  function ConfirmCaption(kind: Option<Action>): (c: string)
    ensures kind.Some? ==> c != "" && c <= Title(kind)
    ensures kind.None? ==> c == ""
  {
    match kind
    case None => ""
    case Some(Approve) => "Approve"
    case Some(Reject) => "Reject"
    case Some(Submit) => "Submit"
    case Some(Execute) => "Execute"
  }

  /** The 'Created By' line. */
  function CreatorLine(t: Transaction): (line: string)
    ensures Stored(t.createdByEmail) ==> line == t.createdByEmail.value
    ensures !Stored(t.createdByEmail) ==> line == "Unknown"
  {
    Api.OrElse(t.createdByEmail, "Unknown")
  }

  datatype ApprovalLine = ApprovalLine(caption: string, email: string)

  /** The approval line: present only with an approver email, captioned
      'Rejected By' on a rejected transaction and 'Approved By' otherwise. */
  function ApprovalLineOf(t: Transaction): (r: Option<ApprovalLine>)
    ensures r.Some? <==> Stored(t.approvedByEmail)
    ensures r.Some? ==> r.value.email == t.approvedByEmail.value
    ensures r.Some? ==> (r.value.caption == "Rejected By" <==> t.status == Rejected)
    ensures r.Some? ==> (r.value.caption == "Approved By" <==> t.status != Rejected)
  {
    if Stored(t.approvedByEmail) then
      Some(ApprovalLine(if t.status == Rejected then "Rejected By" else "Approved By", t.approvedByEmail.value))
    else None
  }

  /** The demo record installed when the fetch fails. */
  function DemoTransaction(id: string, nowIso: string): (t: Transaction)
    ensures t.id == id && t.status == PendingApproval
    ensures t.approvedByEmail.None?
  {
    Transaction(id, "TRX-001", Num(5000.0), "MXN", PendingApproval, "user1", Some("operator@test.com"),
      None, None, nowIso, nowIso, None)
  }

  datatype ConfirmDialog = ConfirmDialog(open: bool, kind: Option<Action>)

  const Closed: ConfirmDialog := ConfirmDialog(false, None)

  class DetailView {
    /** The `:id` route parameter; empty when absent. */
    const routeId: string
    var transaction: Option<Transaction>
    var isLoading: bool
    var actionLoading: bool
    var dialog: ConfirmDialog

    constructor (routeId: string)
      ensures this.routeId == routeId
      ensures transaction.None? && isLoading && !actionLoading && dialog == Closed
    {
      this.routeId := routeId;
      transaction := None;
      isLoading := true;
      actionLoading := false;
      dialog := Closed;
    }

    /** The screen the page renders from its current state. */
    function Shown(): (sc: Screen)
      reads this
      ensures sc.Skeleton? <==> isLoading
      ensures sc.NotFound? <==> !isLoading && transaction.None?
      ensures sc.Detail? ==> transaction == Some(sc.t)
    {
      ScreenOf(isLoading, transaction)
    }

    /** `fetchTransaction`: without a route id it returns before its
        `finally`, so the page keeps loading; otherwise it installs the
        fetched record, or the demo record on failure, and stops loading. */
    method FetchTransaction(response: Outcome<Transaction>, nowIso: string) returns (issued: Option<Api.Request>)
      modifies this`transaction, this`isLoading
      ensures routeId == "" ==> issued.None? && transaction == old(transaction) && isLoading == old(isLoading)
      ensures routeId != "" ==> issued == Some(Api.Fetch(routeId)) && !isLoading
      ensures routeId != "" && response.Success? ==> transaction == Some(response.value)
      ensures routeId != "" && response.Failure? ==> transaction == Some(DemoTransaction(routeId, nowIso))
    {
      if routeId == "" {
        return None;
      }
      issued := Some(Api.Fetch(routeId));
      match response {
        case Success(t) => transaction := Some(t);
        case Failure(_) => transaction := Some(DemoTransaction(routeId, nowIso));
      }
      isLoading := false;
    }

    /** A button click opens the dialog for its action. */
    method OpenDialog(kind: Action)
      modifies this`dialog
      ensures dialog == ConfirmDialog(true, Some(kind))
    {
      dialog := ConfirmDialog(true, Some(kind));
    }

    /** Closing the dialog without confirming resets it. */
    method DismissDialog()
      modifies this`dialog
      ensures dialog == Closed
    {
      dialog := Closed;
    }

    /** `handleAction`: without a route id nothing happens. Otherwise the
        endpoint named by the action is called, a success triggers a refetch
        (`refetch` is its outcome), and the busy flag and dialog are reset
        whatever the outcome. */
    method HandleAction(kind: Action, response: Outcome<Transaction>, refetch: Outcome<Transaction>, nowIso: string)
      returns (issued: seq<Api.Request>)
      modifies this`transaction, this`isLoading, this`actionLoading, this`dialog
      ensures routeId == "" ==> issued == [] && unchanged(this)
      ensures routeId != "" ==> issued == [Api.Transition(kind, routeId)] + (if response.Success? then [Api.Fetch(routeId)] else [])
      ensures routeId != "" ==> !actionLoading && dialog == Closed
      ensures routeId != "" && response.Success? ==> !isLoading
      ensures routeId != "" && response.Success? ==>
        transaction == Some(if refetch.Success? then refetch.value else DemoTransaction(routeId, nowIso))
      ensures routeId != "" && response.Failure? ==> transaction == old(transaction) && isLoading == old(isLoading)
    {
      if routeId == "" {
        return [];
      }
      actionLoading := true;
      issued := [Api.Transition(kind, routeId)];
      if response.Success? {
        var again := FetchTransaction(refetch, nowIso);
        issued := issued + [again.value];
      }
      actionLoading := false;
      dialog := Closed;
    }

    /** The dialog's confirm button. Like every button of the dialog it
        closes it, resetting it; it acts only when an action was chosen. */
    method Confirm(response: Outcome<Transaction>, refetch: Outcome<Transaction>, nowIso: string)
      returns (issued: seq<Api.Request>)
      modifies this`transaction, this`isLoading, this`actionLoading, this`dialog
      ensures dialog == Closed
      ensures old(dialog.kind).None? || routeId == "" ==>
        && issued == []
        && transaction == old(transaction) && isLoading == old(isLoading) && actionLoading == old(actionLoading)
      ensures old(dialog.kind).Some? && routeId != "" ==>
        && issued == [Api.Transition(old(dialog.kind).value, routeId)]
                     + (if response.Success? then [Api.Fetch(routeId)] else [])
        && !actionLoading
        && (response.Success? ==> (!isLoading &&
              transaction == Some(if refetch.Success? then refetch.value else DemoTransaction(routeId, nowIso))))
        && (response.Failure? ==> transaction == old(transaction) && isLoading == old(isLoading))
    {
      var kind := dialog.kind;
      DismissDialog();
      issued := [];
      if kind.Some? {
        issued := HandleAction(kind.value, response, refetch, nowIso);
      }
    }
  }
}

/** The transaction list page: the status filter that chooses what is
    fetched, the reference search over what was fetched, the per-row action
    buttons and busy flag, the confirmation dialog record, and the page state
    that fetching and acting update. */
module TransactionList {
  import opened Domain
  import opened Text
  import opened DialogCopy
  import Api
  import Lifecycle
  import ReferenceSearch
  import StatusBadge
  import TransactionDetail

  /** A choice of the status select: everything, or one status. */
  datatype StatusFilter = All | Only(status: Status)

  /** The select's options, in their order. */
  const StatusOptions: seq<StatusFilter> :=
    [All, Only(Draft), Only(PendingApproval), Only(Approved), Only(Rejected), Only(Executed)]

  /** The option's value: `ALL`, or the status's wire name. */
  function OptionValue(f: StatusFilter): (v: string)
    ensures v == "ALL" <==> f == All
    ensures f.Only? ==> v == StatusName(f.status)
  {
    match f
    case All => "ALL"
    case Only(s) => StatusName(s)
  }

  /** The option's caption. */
  function OptionCaption(f: StatusFilter): string {
    match f
    case All => "All Statuses"
    case Only(Draft) => "Draft"
    case Only(PendingApproval) => "Pending Approval"
    case Only(Approved) => "Approved"
    case Only(Rejected) => "Rejected"
    case Only(Executed) => "Executed"
  }

  /** Every status is offered exactly once, after `All`, and captioned as its
      badge is. */
  lemma StatusOptionsCoverStatuses(s: Status)
    ensures StatusOptions[0] == All
    ensures Only(s) in StatusOptions
    ensures OptionCaption(Only(s)) == StatusBadge.Config(s).caption
    ensures forall i, j :: 0 <= i < j < |StatusOptions| ==> OptionValue(StatusOptions[i]) != OptionValue(StatusOptions[j])
  {
  }

  /** The status the list request asks for: none for `ALL`. */
  function RequestedStatus(f: StatusFilter): (r: Option<Status>)
    ensures r.None? <==> f == All
    ensures f.Only? ==> r == Some(f.status)
  {
    if f.All? then None else Some(f.status)
  }

  /** The query parameters sent for a filter: no `status` for `ALL`, and
      otherwise the selected option's value. */
  lemma FilterParams(f: StatusFilter)
    ensures "status" in Api.StatusParams(RequestedStatus(f)) <==> f != All
    ensures f != All ==> Api.StatusParams(RequestedStatus(f))["status"] == OptionValue(f)
  {
  }

  /** The action buttons of one row, in render order: Submit for an operator
      on a draft, Approve and Reject for an approver on a pending row. */
  function RowActions(viewer: Option<Role>, s: Status): (acts: seq<Action>)
    ensures Execute !in acts
    ensures viewer.None? ==> acts == []
  {
    (if viewer == Some(Operator) && s == Draft then [Submit] else [])
    + (if viewer == Some(Approver) && s == PendingApproval then [Approve, Reject] else [])
  }

  /** A row offers exactly the permitted transitions other than Execute,
      which the list never offers. */
  lemma RowActionsFollowLifecycle(r: Role, s: Status, a: Action)
    ensures a in RowActions(Some(r), s) <==> Lifecycle.Permitted(r, s, a) && a != Execute
  {
  }

  /** The row offers what the detail page offers, less Execute; without a
      user it offers nothing. */
  lemma RowActionsAreDetailActions(viewer: Option<Role>, s: Status, a: Action)
    ensures a in RowActions(viewer, s) <==> a in TransactionDetail.Actions(viewer, s) && a != Execute
    ensures RowActions(None, s) == []
  {
  }

  /** The link of a row's view button. */
  function ViewLink(id: string): (link: string)
    ensures |link| == |"/transactions/"| + |id|
    ensures link[..|"/transactions/"|] == "/transactions/" && link[|"/transactions/"|..] == id
  {
    "/transactions/" + id
  }

  /** One rendered row: its view link and its action buttons. */
  datatype Row = Row(link: string, buttons: seq<TransactionDetail.Button>)

  /** A row's buttons are disabled exactly while an action on that row is in
      flight. */
  function RowOf(t: Transaction, viewer: Option<Role>, actionLoading: Option<string>): (row: Row)
    ensures row.link == ViewLink(t.id)
    ensures |row.buttons| == |RowActions(viewer, t.status)|
    ensures forall i :: 0 <= i < |row.buttons| ==> row.buttons[i].action == RowActions(viewer, t.status)[i]
    ensures forall i :: 0 <= i < |row.buttons| ==> (row.buttons[i].disabled <==> actionLoading == Some(t.id))
  {
    var acts := RowActions(viewer, t.status);
    Row(ViewLink(t.id),
        seq(|acts|, i requires 0 <= i < |acts| => TransactionDetail.Button(acts[i], actionLoading == Some(t.id))))
  }

  /** What the table body shows. */
  datatype Body = SkeletonRows | NoneFound | Rows(rows: seq<Row>)

  /** Placeholders while loading, then 'No transactions found' when the search
      leaves nothing, then one row per matching transaction in list order. */
  function BodyOf(isLoading: bool, ts: seq<Transaction>, query: string, viewer: Option<Role>,
                  actionLoading: Option<string>): (b: Body)
    ensures b.SkeletonRows? <==> isLoading
    ensures b.NoneFound? <==> !isLoading && ReferenceSearch.Filter(ts, query) == []
    ensures b.Rows? ==> |b.rows| == |ReferenceSearch.Filter(ts, query)|
    ensures b.Rows? ==> forall i :: 0 <= i < |b.rows| ==>
      b.rows[i] == RowOf(ReferenceSearch.Filter(ts, query)[i], viewer, actionLoading)
  {
    var shown := ReferenceSearch.Filter(ts, query);
    if isLoading then SkeletonRows
    else if shown == [] then NoneFound
    else Rows(seq(|shown|, i requires 0 <= i < |shown| => RowOf(shown[i], viewer, actionLoading)))
  }

  /** The confirmation dialog record. */
  datatype ListDialog = ListDialog(open: bool, kind: Option<Action>, transactionId: Option<string>, reference: string)

  /** `{ open: false, type: null, transactionId: null, reference: '' }`. */
  const Reset: ListDialog := ListDialog(false, None, None, "")

  /** The dialog title; the list has none for Execute. */
  function Title(kind: Option<Action>): (title: string)
    ensures title == "" <==> kind.None? || kind == Some(Execute)
    ensures kind != Some(Execute) ==> title == TransactionDetail.Title(kind)
  {
    match kind
    case Some(Approve) => "Approve Transaction"
    case Some(Reject) => "Reject Transaction"
    case Some(Submit) => "Submit for Approval"
    case _ => ""
  }

  /** The confirm button's caption, the first word of the title. */
  function ConfirmCaption(kind: Option<Action>): (c: string)
    ensures c != "" <==> kind.Some? && kind != Some(Execute)
    ensures c <= Title(kind)
  {
    match kind
    case Some(Approve) => "Approve"
    case Some(Reject) => "Reject"
    case Some(Submit) => "Submit"
    case _ => ""
  }

  /** The action word as interpolated: empty while no action is chosen. */
  function KindWord(kind: Option<Action>): string {
    if kind.Some? then ActionName(kind.value) else ""
  }

  /** 'Are you sure you want to <action> transaction <reference>?', followed
      by the irreversibility sentence for Reject. */
  function Description(kind: Option<Action>, reference: string): (ps: seq<Piece>)
    ensures Names(ps, reference)
    ensures kind.Some? ==> Names(ps, ActionName(kind.value))
    ensures Warns(ps) <==> kind == Some(Reject)
  {
    [Fixed("Are you sure you want to "), Value(KindWord(kind)), Fixed(" transaction "), Value(reference), Fixed("?")]
    + (if kind == Some(Reject) then [Fixed(" "), Fixed(Irreversible)] else [])
  }

  /** The rendered description contains the action word and the reference. */
  lemma DescriptionShowsActionAndReference(kind: Action, reference: string)
    ensures Contains(Render(Description(Some(kind), reference)), ActionName(kind))
    ensures Contains(Render(Description(Some(kind), reference)), reference)
  {
    NamedIsRendered(Description(Some(kind), reference), ActionName(kind));
    NamedIsRendered(Description(Some(kind), reference), reference);
  }

  /** One demo record of the fallback list. */
  function DemoRecord(id: string, reference: string, amount: real, currency: string, status: Status,
                      reviewed: bool, nowIso: string): Transaction {
    Transaction(id, reference, Num(amount), currency, status, "user1", Some("operator@test.com"),
      if reviewed then Some("user2") else None,
      if reviewed then Some("approver@test.com") else None,
      nowIso, nowIso, None)
  }

  /** The five demo records installed when the fetch fails: distinct ids and
      references, one record in each status. */
  function DemoTransactions(nowIso: string): (ts: seq<Transaction>)
    ensures |ts| == 5
    ensures forall i, j :: 0 <= i < j < |ts| ==> ts[i].id != ts[j].id && ts[i].reference != ts[j].reference
  {
    var ts := [
      DemoRecord("1", "TRX-001", 5000.0, "MXN", Draft, false, nowIso),
      DemoRecord("2", "TRX-002", 12500.0, "USD", PendingApproval, false, nowIso),
      DemoRecord("3", "TRX-003", 8750.0, "EUR", Approved, true, nowIso),
      DemoRecord("4", "TRX-004", 3200.0, "MXN", Executed, true, nowIso),
      DemoRecord("5", "TRX-005", 15000.0, "USD", Rejected, false, nowIso)];
    ts
  }

  /** The demo list holds a record in every status. */
  lemma DemoCoversStatuses(s: Status, nowIso: string)
    ensures exists i :: 0 <= i < |DemoTransactions(nowIso)| && DemoTransactions(nowIso)[i].status == s
  {
    var ts := DemoTransactions(nowIso);
    var i := match s
      case Draft => 0
      case PendingApproval => 1
      case Approved => 2
      case Executed => 3
      case Rejected => 4;
    assert ts[i].status == s;
  }

  class ListView {
    var transactions: seq<Transaction>
    var isLoading: bool
    var searchQuery: string
    var statusFilter: StatusFilter
    var actionLoading: Option<string>
    var dialog: ListDialog

    constructor ()
      ensures transactions == [] && isLoading && searchQuery == "" && statusFilter == All
      ensures actionLoading.None? && dialog == Reset
    {
      transactions := [];
      isLoading := true;
      searchQuery := "";
      statusFilter := All;
      actionLoading := None;
      dialog := Reset;
    }

    /** `filteredTransactions`: the fetched records whose reference matches
        the search, in fetched order. */
    function Visible(): (v: seq<Transaction>)
      reads this
      ensures |v| <= |transactions|
      ensures forall t :: t in v <==> t in transactions && ReferenceSearch.Matches(t, searchQuery)
    {
      ReferenceSearch.Filter(transactions, searchQuery)
    }

    /** `fetchTransactions`: asks for the filter's status; installs the
        (normalised) records, or the demo list on failure; stops loading. */
    method FetchTransactions(response: Outcome<seq<Transaction>>, nowIso: string) returns (issued: Api.Request)
      modifies this`transactions, this`isLoading
      ensures issued == Api.List(RequestedStatus(statusFilter))
      ensures transactions == if response.Success? then response.value else DemoTransactions(nowIso)
      ensures !isLoading
    {
      issued := Api.List(RequestedStatus(statusFilter));
      match response {
        case Success(ts) => transactions := ts;
        case Failure(_) => transactions := DemoTransactions(nowIso);
      }
      isLoading := false;
    }

    /** Typing in the search box; only the shown rows change. */
    method SetSearchQuery(query: string)
      modifies this`searchQuery
      ensures searchQuery == query
    {
      searchQuery := query;
    }

    /** Choosing a status option. The fetch is the effect keyed on the
        filter, so it runs only when the choice differs from the current
        one; choosing the current option again changes nothing. */
    method SetStatusFilter(f: StatusFilter, response: Outcome<seq<Transaction>>, nowIso: string)
      returns (issued: seq<Api.Request>)
      modifies this`statusFilter, this`transactions, this`isLoading
      ensures statusFilter == f
      ensures f == old(statusFilter) ==> issued == [] && unchanged(this)
      ensures f != old(statusFilter) ==> issued == [Api.List(RequestedStatus(f))]
      ensures f != old(statusFilter) ==>
        transactions == (if response.Success? then response.value else DemoTransactions(nowIso)) && !isLoading
    {
      if f == statusFilter {
        return [];
      }
      statusFilter := f;
      var request := FetchTransactions(response, nowIso);
      issued := [request];
    }

    /** `openConfirmDialog`: records the action, the row's id and its reference. */
    method OpenConfirmDialog(kind: Action, id: string, reference: string)
      requires kind != Execute
      modifies this`dialog
      ensures dialog == ListDialog(true, Some(kind), Some(id), reference)
    {
      dialog := ListDialog(true, Some(kind), Some(id), reference);
    }

    /** Closing without confirming only clears `open`. */
    method DismissDialog()
      modifies this`dialog
      ensures dialog == old(dialog).(open := false)
    {
      dialog := dialog.(open := false);
    }

    /** `handleAction`: the row is busy while the endpoint named by the action
        is called; a success fetches the list again (`refetch` is that
        fetch's outcome); the busy flag and the dialog are reset whatever the
        outcome. */
    method HandleAction(kind: Action, id: string, response: Outcome<Transaction>,
                        refetch: Outcome<seq<Transaction>>, nowIso: string)
      returns (issued: seq<Api.Request>)
      requires kind != Execute
      modifies this`transactions, this`isLoading, this`actionLoading, this`dialog
      ensures issued == [Api.Transition(kind, id)]
                        + (if response.Success? then [Api.List(RequestedStatus(statusFilter))] else [])
      ensures actionLoading.None? && dialog == Reset
      ensures response.Success? ==> !isLoading
      ensures response.Success? ==>
        transactions == if refetch.Success? then refetch.value else DemoTransactions(nowIso)
      ensures response.Failure? ==> transactions == old(transactions) && isLoading == old(isLoading)
    {
      actionLoading := Some(id);
      issued := [Api.Transition(kind, id)];
      if response.Success? {
        var again := FetchTransactions(refetch, nowIso);
        issued := issued + [again];
      }
      actionLoading := None;
      dialog := Reset;
    }

    /** The dialog's confirm button. Like every button of the dialog it
        closes it as a dismissal does; it acts only when both an id
        (non-empty) and an action are recorded, and then the action's own
        reset of the dialog follows. */
    method Confirm(response: Outcome<Transaction>, refetch: Outcome<seq<Transaction>>, nowIso: string)
      returns (issued: seq<Api.Request>)
      requires dialog.kind != Some(Execute)
      modifies this`transactions, this`isLoading, this`actionLoading, this`dialog
      ensures !(Stored(old(dialog.transactionId)) && old(dialog.kind).Some?) ==>
        && issued == []
        && dialog == old(dialog).(open := false)
        && transactions == old(transactions) && isLoading == old(isLoading) && actionLoading == old(actionLoading)
      ensures Stored(old(dialog.transactionId)) && old(dialog.kind).Some? ==>
        && issued == [Api.Transition(old(dialog.kind).value, old(dialog.transactionId).value)]
                     + (if response.Success? then [Api.List(RequestedStatus(statusFilter))] else [])
        && actionLoading.None? && dialog == Reset
        && (response.Success? ==> (!isLoading &&
              transactions == if refetch.Success? then refetch.value else DemoTransactions(nowIso)))
        && (response.Failure? ==> transactions == old(transactions) && isLoading == old(isLoading))
    {
      var kind, id := dialog.kind, dialog.transactionId;
      DismissDialog();
      issued := [];
      if Stored(id) && kind.Some? {
        issued := HandleAction(kind.value, id.value, response, refetch, nowIso);
      }
    }
  }
}

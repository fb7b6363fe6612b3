/** The approver's queue: the pending transactions, searchable by reference,
    each with Approve and Reject buttons, a header counting what is shown,
    and the same confirmation dialog record as the transaction list. */
module PendingApprovals {
  import opened Domain
  import opened Text
  import opened DialogCopy
  import Api
  import Lifecycle
  import ReferenceSearch
  import TransactionDetail
  import TransactionList

  /** The only request the page lists with: the pending transactions. */
  const PendingRequest: Api.Request := Api.List(Some(PendingApproval))

  /** The request sends `status=PENDING_APPROVAL`, the same request the
      pending-count call makes. */
  lemma PendingRequestParams()
    ensures Api.StatusParams(PendingRequest.status) == map["status" := "PENDING_APPROVAL"]
    ensures PendingRequest == Api.PendingCountRequest
  {
  }

  /** The header: '<n> transaction(s) awaiting your review'. */
  function CountText(n: nat): (t: string)
    ensures NatToString(n) <= t
  {
    NatToString(n) + " transaction" + (if n != 1 then "s" else "") + " awaiting your review"
  }

  /** The header begins with the count: the text before its first space
      reads back as `n`. */
  lemma CountTextReadsBack(n: nat)
    ensures forall i :: 0 <= i < |BeforeFirst(CountText(n), ' ')| ==> '0' <= BeforeFirst(CountText(n), ' ')[i] <= '9'
    ensures DecimalValue(BeforeFirst(CountText(n), ' ')) == n
  {
    var digits := NatToString(n);
    var rest := " transaction" + (if n != 1 then "s" else "") + " awaiting your review";
    assert CountText(n) == digits + rest;
    assert forall i :: 0 <= i < |digits| ==> digits[i] != ' ';
    BeforeFirstConcat(digits, ' ', rest);
    NatToStringRoundTrip(n);
  }

  /** The noun takes an 's' exactly when the count is not one. */
  lemma CountTextPlural(n: nat)
    ensures |CountText(n)| > |NatToString(n)| + 12
    ensures CountText(n)[|NatToString(n)| + 12] == 's' <==> n != 1
  {
    var k := |NatToString(n)|;
    assert CountText(n)[k..k + 12] == " transaction";
    if n != 1 {
      assert CountText(n)[k + 12] == 's';
    } else {
      assert CountText(n)[k + 12] == ' ';
    }
  }

  /** Every row offers Approve then Reject, with no role or status check. */
  const RowActions: seq<Action> := [Approve, Reject]

  /** On a pending transaction the row's actions are exactly what the
      workflow lets an approver do. */
  lemma RowActionsOnPending(a: Action)
    ensures a in RowActions <==> Lifecycle.Permitted(Approver, PendingApproval, a)
    ensures forall s :: s != PendingApproval ==> !Lifecycle.Permitted(Approver, s, Approve)
  {
  }

  /** One row: its view link and both buttons, disabled exactly while an
      action on that row is in flight. */
  function RowOf(t: Transaction, actionLoading: Option<string>): (row: TransactionList.Row)
    ensures row.link == TransactionList.ViewLink(t.id)
    ensures |row.buttons| == 2 && row.buttons[0].action == Approve && row.buttons[1].action == Reject
    ensures forall i :: 0 <= i < |row.buttons| ==> (row.buttons[i].disabled <==> actionLoading == Some(t.id))
  {
    var busy := actionLoading == Some(t.id);
    TransactionList.Row(TransactionList.ViewLink(t.id),
      [TransactionDetail.Button(Approve, busy), TransactionDetail.Button(Reject, busy)])
  }

  /** What the table body shows. */
  datatype Body = SkeletonRows | AllCaughtUp | Rows(rows: seq<TransactionList.Row>)

  /** Placeholders while loading, then 'All caught up!' when the search
      leaves nothing, then one row per matching transaction in list order. */
  function BodyOf(isLoading: bool, ts: seq<Transaction>, query: string, actionLoading: Option<string>): (b: Body)
    ensures b.SkeletonRows? <==> isLoading
    ensures b.AllCaughtUp? <==> !isLoading && ReferenceSearch.Filter(ts, query) == []
    ensures b.Rows? ==> |b.rows| == |ReferenceSearch.Filter(ts, query)|
    ensures b.Rows? ==> forall i :: 0 <= i < |b.rows| ==>
      b.rows[i] == RowOf(ReferenceSearch.Filter(ts, query)[i], actionLoading)
  {
    var shown := ReferenceSearch.Filter(ts, query);
    if isLoading then SkeletonRows
    else if shown == [] then AllCaughtUp
    else Rows(seq(|shown|, i requires 0 <= i < |shown| => RowOf(shown[i], actionLoading)))
  }

  /** The dialog title: Approve only for an approve choice, Reject otherwise,
      including while no action is chosen. */
  function Title(kind: Option<Action>): (title: string)
    ensures kind == Some(Approve) ==> title == TransactionList.Title(Some(Approve))
    ensures kind != Some(Approve) ==> title == TransactionList.Title(Some(Reject))
  {
    if kind == Some(Approve) then "Approve Transaction" else "Reject Transaction"
  }

  /** The confirm button's caption, the first word of the title. */
  function ConfirmCaption(kind: Option<Action>): (c: string)
    ensures c != "" && c <= Title(kind)
    ensures c == "Approve" <==> kind == Some(Approve)
  {
    if kind == Some(Approve) then "Approve" else "Reject"
  }

  /** With no action chosen the page still titles the dialog for Reject,
      while the transaction list leaves it blank. */
  lemma UnchosenTitleDiffers()
    ensures Title(None) == "Reject Transaction" && TransactionList.Title(None) == ""
  {
  }

  /** 'Are you sure you want to <action> transaction <reference>?', followed
      by the irreversibility sentence for Reject only. */
  function Description(kind: Option<Action>, reference: string): (ps: seq<Piece>)
    ensures Names(ps, reference)
    ensures kind.Some? ==> Names(ps, ActionName(kind.value))
    ensures Warns(ps) <==> kind == Some(Reject)
  {
    var word := if kind.Some? then ActionName(kind.value) else "";
    [Fixed("Are you sure you want to "), Value(word), Fixed(" transaction "), Value(reference), Fixed("?")]
    + (if kind == Some(Reject) then [Fixed(" "), Fixed(Irreversible)] else [])
  }

  /** The page asks exactly what the transaction list asks, and a reject
      confirmation renders the warning beside the reference. */
  lemma DescriptionAsList(kind: Option<Action>, reference: string)
    ensures Description(kind, reference) == TransactionList.Description(kind, reference)
    ensures Contains(Render(Description(Some(Reject), reference)), Irreversible)
    ensures Contains(Render(Description(Some(Reject), reference)), reference)
  {
    WarningIsRendered(Description(Some(Reject), reference));
    NamedIsRendered(Description(Some(Reject), reference), reference);
  }

  /** The three demo records installed when the fetch fails: distinct ids,
      all pending. */
  function DemoTransactions(nowIso: string): (ts: seq<Transaction>)
    ensures |ts| == 3
    ensures forall i :: 0 <= i < |ts| ==> ts[i].status == PendingApproval
    ensures forall i, j :: 0 <= i < j < |ts| ==> ts[i].id != ts[j].id
  {
    [Transaction("1", "TRX-001", Num(5000.0), "MXN", PendingApproval, "user1", Some("operator@test.com"),
       None, None, nowIso, nowIso, None),
     Transaction("2", "TRX-002", Num(12500.0), "USD", PendingApproval, "user1", Some("operator2@test.com"),
       None, None, nowIso, nowIso, None),
     Transaction("3", "TRX-003", Num(8750.0), "EUR", PendingApproval, "user1", Some("operator@test.com"),
       None, None, nowIso, nowIso, None)]
  }

  class PendingView {
    var transactions: seq<Transaction>
    var isLoading: bool
    var searchQuery: string
    var actionLoading: Option<string>
    var dialog: TransactionList.ListDialog

    constructor ()
      ensures transactions == [] && isLoading && searchQuery == ""
      ensures actionLoading.None? && dialog == TransactionList.Reset
    {
      transactions := [];
      isLoading := true;
      searchQuery := "";
      actionLoading := None;
      dialog := TransactionList.Reset;
    }

    /** `filteredTransactions`: the fetched records whose reference matches
        the search, in fetched order. */
    function Visible(): (v: seq<Transaction>)
      reads this
      ensures |v| <= |transactions|
      ensures forall t :: t in v <==> t in transactions && ReferenceSearch.Matches(t, searchQuery)
    {
      ReferenceSearch.Filter(transactions, searchQuery)
    }

    /** The header line counts the rows shown, not the rows fetched: its
        leading number reads back as the length of the searched list. */
    function Header(): (h: string)
      reads this
      ensures h == CountText(|ReferenceSearch.Filter(transactions, searchQuery)|)
      ensures forall i :: 0 <= i < |BeforeFirst(h, ' ')| ==> '0' <= BeforeFirst(h, ' ')[i] <= '9'
      ensures DecimalValue(BeforeFirst(h, ' ')) == |Visible()|
    {
      CountTextReadsBack(|Visible()|);
      CountText(|Visible()|)
    }

    /** `fetchTransactions`: asks for the pending list; installs it, or the
        demo list on failure; stops loading. */
    method FetchTransactions(response: Outcome<seq<Transaction>>, nowIso: string) returns (issued: Api.Request)
      modifies this`transactions, this`isLoading
      ensures issued == PendingRequest
      ensures transactions == if response.Success? then response.value else DemoTransactions(nowIso)
      ensures !isLoading
    {
      issued := PendingRequest;
      match response {
        case Success(ts) => transactions := ts;
        case Failure(_) => transactions := DemoTransactions(nowIso);
      }
      isLoading := false;
    }

    method SetSearchQuery(query: string)
      modifies this`searchQuery
      ensures searchQuery == query
    {
      searchQuery := query;
    }

    /** `openConfirmDialog`: records the action, the row's id and its reference. */
    method OpenConfirmDialog(kind: Action, id: string, reference: string)
      requires kind == Approve || kind == Reject
      modifies this`dialog
      ensures dialog == TransactionList.ListDialog(true, Some(kind), Some(id), reference)
    {
      dialog := TransactionList.ListDialog(true, Some(kind), Some(id), reference);
    }

    /** Closing without confirming only clears `open`. */
    method DismissDialog()
      modifies this`dialog
      ensures dialog == old(dialog).(open := false)
    {
      dialog := dialog.(open := false);
    }

    /** `handleAction`: the row is busy while approve or reject is called; a
        success fetches the pending list again (`refetch` is its outcome);
        the busy flag and the dialog are reset whatever the outcome. */
    method HandleAction(kind: Action, id: string, response: Outcome<Transaction>,
                        refetch: Outcome<seq<Transaction>>, nowIso: string)
      returns (issued: seq<Api.Request>)
      requires kind == Approve || kind == Reject
      modifies this`transactions, this`isLoading, this`actionLoading, this`dialog
      ensures issued == [Api.Transition(kind, id)] + (if response.Success? then [PendingRequest] else [])
      ensures actionLoading.None? && dialog == TransactionList.Reset
      ensures response.Success? ==> !isLoading
      ensures response.Success? ==>
        transactions == if refetch.Success? then refetch.value else DemoTransactions(nowIso)
      ensures response.Failure? ==> transactions == old(transactions) && isLoading == old(isLoading)
    {
      actionLoading := Some(id);
      issued := [Api.Transition(kind, id)];
      if response.Success? {
        var again := FetchTransactions(refetch, nowIso);
        issued := issued + [again];
      }
      actionLoading := None;
      dialog := TransactionList.Reset;
    }

    /** The dialog's confirm button. Like every button of the dialog it
        closes it as a dismissal does; it acts only when both an id
        (non-empty) and an action are recorded, and then the action's own
        reset of the dialog follows. */
    method Confirm(response: Outcome<Transaction>, refetch: Outcome<seq<Transaction>>, nowIso: string)
      returns (issued: seq<Api.Request>)
      requires dialog.kind.None? || dialog.kind == Some(Approve) || dialog.kind == Some(Reject)
      modifies this`transactions, this`isLoading, this`actionLoading, this`dialog
      ensures !(Stored(old(dialog.transactionId)) && old(dialog.kind).Some?) ==>
        && issued == []
        && dialog == old(dialog).(open := false)
        && transactions == old(transactions) && isLoading == old(isLoading) && actionLoading == old(actionLoading)
      ensures Stored(old(dialog.transactionId)) && old(dialog.kind).Some? ==>
        && issued == [Api.Transition(old(dialog.kind).value, old(dialog.transactionId).value)]
                     + (if response.Success? then [PendingRequest] else [])
        && actionLoading.None? && dialog == TransactionList.Reset
        && (response.Success? ==> (!isLoading &&
              transactions == if refetch.Success? then refetch.value else DemoTransactions(nowIso)))
        && (response.Failure? ==> transactions == old(transactions) && isLoading == old(isLoading))
    {
      var kind, id := dialog.kind, dialog.transactionId;
      DismissDialog();
      issued := [];
      if Stored(id) && kind.Some? {
        issued := HandleAction(kind.value, id.value, response, refetch, nowIso);
      }
    }
  }
}

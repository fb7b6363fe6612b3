/** The HTTP client: the requests the views can issue, the normalisation of
    the records the service returns, and the two interceptors that attach the
    bearer token (section 2.1 of RFC 6750) and purge it on a 401 response.
    Transport is not modelled: every call settles into an `Outcome`. */
module Api {
  import opened Domain

  /** The calls the client makes, each naming its endpoint and its data. */
  datatype Request =
    | Login(username: string, password: string)
    | List(status: Option<Status>)
    | Fetch(id: string)
    | Create(amount: JsNumber, currency: string)
    | Transition(action: Action, id: string)
    | Stats

  const TransactionsPath: string := "/api/v2/transactions"

  /** The endpoint path of a request: the login exchange is the only call
      outside the protected transactions collection. */
  function Path(r: Request): (p: string)
    ensures TransactionsPath <= p <==> !r.Login?
  {
    match r
    case Login(_, _) => "/api/v1/auth/login"
    case List(_) => TransactionsPath
    case Fetch(id) => TransactionsPath + "/" + id
    case Create(_, _) => TransactionsPath
    case Transition(a, id) => TransactionsPath + "/" + id + "/" + ActionName(a)
    case Stats => TransactionsPath + "/stats"
  }

  /** `status ? { status } : {}`: the query parameters of a list request. */
  function StatusParams(status: Option<Status>): (p: map<string, string>)
    ensures "status" in p <==> status.Some?
    ensures status.Some? ==> p["status"] == StatusName(status.value)
    ensures p.Keys <= {"status"}
  {
    if status.Some? then map["status" := StatusName(status.value)] else map[]
  }

  /** The same id never names two endpoints: the transition path tells the
      action apart. */
  lemma {:induction false} TransitionPathsDistinct(a: Action, b: Action, id: string)
    requires Path(Transition(a, id)) == Path(Transition(b, id))
    ensures a == b
  {
    var p := TransactionsPath + "/" + id + "/";
    assert Path(Transition(a, id)) == p + ActionName(a);
    assert Path(Transition(b, id)) == p + ActionName(b);
    assert (p + ActionName(a))[|p|..] == ActionName(a);
    assert (p + ActionName(b))[|p|..] == ActionName(b);
  }

  /** A record amount on the wire: a number, or a decimal string. */
  datatype Amount = NumberAmount(n: JsNumber) | TextAmount(s: string)

  /** A transaction as the service sends it: any field may be missing, the id
      may come as `transaction_id`, and the amount may be textual. */
  datatype WireTransaction = WireTransaction(
    id: Option<string>,
    transactionId: Option<string>,
    reference: Option<string>,
    amount: Option<Amount>,
    currency: Option<string>,
    status: Option<Status>,
    createdBy: Option<string>,
    createdByEmail: Option<string>,
    approvedBy: Option<string>,
    approvedByEmail: Option<string>,
    createdAt: Option<string>,
    updatedAt: Option<string>)

  /** `x || d` on an optional string: the empty string counts as missing. */
  function OrElse(x: Option<string>, d: string): (r: string)
    ensures Stored(x) ==> r == x.value
    ensures !Stored(x) ==> r == d
  {
    if x.Some? && x.value != "" then x.value else d
  }

  /** The numeric amount: a string goes through `parseFloat` (the parameter
      `parse`), a number is kept unless falsy, and falsy or missing becomes 0. */
  function NormalizeAmount(a: Option<Amount>, parse: string -> JsNumber): (n: JsNumber)
    ensures a.Some? && a.value.TextAmount? ==> n == parse(a.value.s)
    ensures a.Some? && a.value.NumberAmount? && !a.value.n.Falsy() ==> n == a.value.n
    ensures a.None? || (a.value.NumberAmount? && a.value.n.Falsy()) ==> n == Num(0.0)
  {
    match a
    case Some(TextAmount(s)) => parse(s)
    case Some(NumberAmount(x)) => if x.Falsy() then Num(0.0) else x
    case None => Num(0.0)
  }

  /** `normalizeTransaction`: defaults filled, amount coerced, every other
      field passed through by the spread. `nowIso` stands for the clock's
      ISO timestamp used when a date is missing. */
  function Normalize(w: WireTransaction, parse: string -> JsNumber, nowIso: string): (t: Transaction)
    ensures Stored(w.id) ==> t.id == w.id.value
    ensures !Stored(w.id) && Stored(w.transactionId) ==> t.id == w.transactionId.value
    ensures t.id == "" <==> !Stored(w.id) && !Stored(w.transactionId)
    ensures w.status.Some? ==> t.status == w.status.value
    ensures w.status.None? ==> t.status == Draft
    ensures t.reference == if Stored(w.reference) then w.reference.value else ""
    ensures t.currency == if Stored(w.currency) then w.currency.value else ""
    ensures t.createdBy == if Stored(w.createdBy) then w.createdBy.value else ""
    ensures t.createdAt == if Stored(w.createdAt) then w.createdAt.value else nowIso
    ensures t.updatedAt == if Stored(w.updatedAt) then w.updatedAt.value else nowIso
    ensures t.amount == NormalizeAmount(w.amount, parse)
    ensures t.createdByEmail == w.createdByEmail && t.approvedBy == w.approvedBy
    ensures t.approvedByEmail == w.approvedByEmail && t.transactionId == w.transactionId
  {
    Transaction(
      id := OrElse(w.id, OrElse(w.transactionId, "")),
      reference := OrElse(w.reference, ""),
      amount := NormalizeAmount(w.amount, parse),
      currency := OrElse(w.currency, ""),
      status := if w.status.Some? then w.status.value else Draft,
      createdBy := OrElse(w.createdBy, ""),
      createdByEmail := w.createdByEmail,
      approvedBy := w.approvedBy,
      approvedByEmail := w.approvedByEmail,
      createdAt := OrElse(w.createdAt, nowIso),
      updatedAt := OrElse(w.updatedAt, nowIso),
      transactionId := w.transactionId)
  }

  /** A normalised record sent back through the wire shape. */
  function ToWire(t: Transaction): WireTransaction {
    WireTransaction(Some(t.id), t.transactionId, Some(t.reference), Some(NumberAmount(t.amount)),
      Some(t.currency), Some(t.status), Some(t.createdBy), t.createdByEmail, t.approvedBy,
      t.approvedByEmail, Some(t.createdAt), Some(t.updatedAt))
  }

  /** Normalising a normalised record changes nothing, unless its amount is
      NaN (which `|| 0` turns into 0 the second time). */
  lemma NormalizeIdempotent(w: WireTransaction, parse: string -> JsNumber, nowIso: string)
    requires nowIso != ""
    requires Normalize(w, parse, nowIso).amount != NaN
    ensures Normalize(ToWire(Normalize(w, parse, nowIso)), parse, nowIso) == Normalize(w, parse, nowIso)
  {
  }

  /** The NaN exception: an unparsable amount string normalises to NaN, and
      normalising that record again gives 0. */
  lemma NaNAmountNotStable(parse: string -> JsNumber)
    requires parse("abc") == NaN
    ensures var w := WireTransaction(Some("7"), None, None, Some(TextAmount("abc")), None, None,
                                     None, None, None, None, None, None);
            Normalize(w, parse, "now").amount == NaN &&
            Normalize(ToWire(Normalize(w, parse, "now")), parse, "now").amount == Num(0.0)
  {
  }

  /** `response.data.map(normalizeTransaction)`, in server order. */
  function NormalizeAll(ws: seq<WireTransaction>, parse: string -> JsNumber, nowIso: string): (ts: seq<Transaction>)
    ensures |ts| == |ws|
    ensures forall i :: 0 <= i < |ws| ==> ts[i] == Normalize(ws[i], parse, nowIso)
  {
    if ws == [] then [] else [Normalize(ws[0], parse, nowIso)] + NormalizeAll(ws[1..], parse, nowIso)
  }

  /** `getAll`: the records of a successful list call, normalised; a failed
      call stays failed with the same error. */
  function GetAll(response: Outcome<seq<WireTransaction>>, parse: string -> JsNumber, nowIso: string): (r: Outcome<seq<Transaction>>)
    ensures r.Failure? <==> response.Failure?
    ensures r.Failure? ==> r.error == response.error
    ensures r.Success? ==> |r.value| == |response.value|
    ensures r.Success? ==> forall i :: 0 <= i < |r.value| ==> r.value[i] == Normalize(response.value[i], parse, nowIso)
  {
    match response
    case Success(ws) => Success(NormalizeAll(ws, parse, nowIso))
    case Failure(e) => Failure(e)
  }

  /** The request `getPendingCount` issues: the list filtered to pending. */
  const PendingCountRequest: Request := List(Some(PendingApproval))

  /** `getPendingCount`: the number of records the pending list returns. */
  function PendingCount(response: Outcome<seq<WireTransaction>>): (r: Outcome<nat>)
    ensures r.Success? <==> response.Success?
    ensures r.Success? ==> r.value == |response.value|
    ensures r.Failure? ==> r.error == response.error
  {
    match response
    case Success(ws) => Success(|ws|)
    case Failure(e) => Failure(e)
  }

  /** `Bearer <token>`, the credentials syntax of section 2.1 of RFC 6750. */
  function BearerValue(token: string): (v: string)
    ensures |v| == 7 + |token|
    ensures v[..7] == "Bearer " && v[7..] == token
  {
    "Bearer " + token
  }

  /** The request interceptor's effect on the headers: Authorization is set
      iff a token is stored; nothing else changes. */
  function WithBearer(headers: map<string, string>, token: Option<string>): (h: map<string, string>)
    ensures Stored(token) ==> "Authorization" in h && h["Authorization"] == BearerValue(token.value)
    ensures !Stored(token) ==> h == headers
    ensures h.Keys == if Stored(token) then headers.Keys + {"Authorization"} else headers.Keys
    ensures forall k :: k in headers && k != "Authorization" ==> h[k] == headers[k]
  {
    if Stored(token) then headers["Authorization" := BearerValue(token.value)] else headers
  }

  /** The outgoing request's configuration, whose headers the interceptor edits in place. */
  class RequestConfig {
    var headers: map<string, string>

    constructor (headers: map<string, string>)
      ensures this.headers == headers
    {
      this.headers := headers;
    }
  }

  /** The request interceptor. */
  method AttachToken(config: RequestConfig, store: TokenStore)
    modifies config
    ensures config.headers == WithBearer(old(config.headers), store.accessToken)
  {
    var token := store.accessToken;
    if token.Some? && token.value != "" {
      config.headers := config.headers["Authorization" := BearerValue(token.value)];
    }
  }

  /** The response interceptor's error path: a 401 purges the stored token;
      the error is rejected again unchanged. */
  method RejectError(store: TokenStore, err: ApiError) returns (rejected: ApiError)
    modifies store
    ensures rejected == err
    ensures store.accessToken == if err.status == Some(401) then None else old(store.accessToken)
  {
    if err.status == Some(401) {
      store.accessToken := None;
    }
    rejected := err;
  }
}

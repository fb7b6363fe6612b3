/** Value types shared by every part of the client: the two closed enumerations
    of the type declarations, the transaction record, the outcome of a call to
    the remote service, and the browser's persisted token slot. */
module Domain {

  datatype Option<T> = None | Some(value: T)

  /** `UserRole` of the type declarations. */
  datatype Role = Operator | Approver

  /** `TransactionStatus` of the type declarations, in declaration order. */
  datatype Status = Draft | PendingApproval | Approved | Rejected | Executed

  /** The four transition requests a view can issue. */
  datatype Action = Submit | Approve | Reject | Execute

  /** The wire name of a role. */
  function RoleName(r: Role): string {
    match r
    case Operator => "OPERATOR"
    case Approver => "APPROVER"
  }

  /** The views compare the untyped role string of the signed-in user with
      `'OPERATOR'` and `'APPROVER'`; any other string (or no user) matches
      neither. */
  function RoleOf(s: string): (r: Option<Role>)
    ensures r.Some? ==> RoleName(r.value) == s
    ensures forall role: Role :: RoleName(role) == s ==> r == Some(role)
  {
    if s == "OPERATOR" then Some(Operator)
    else if s == "APPROVER" then Some(Approver)
    else None
  }

  /** The wire name of a status. */
  function StatusName(s: Status): string {
    match s
    case Draft => "DRAFT"
    case PendingApproval => "PENDING_APPROVAL"
    case Approved => "APPROVED"
    case Rejected => "REJECTED"
    case Executed => "EXECUTED"
  }

  /** The lower-case action word used in endpoint paths and dialog copy. */
  function ActionName(a: Action): string {
    match a
    case Submit => "submit"
    case Approve => "approve"
    case Reject => "reject"
    case Execute => "execute"
  }

  /** A JavaScript number as far as the client inspects it: a finite value
      or NaN (infinities are not modelled). */
  datatype JsNumber = Num(v: real) | NaN {
    /** `0`, `-0` and `NaN` are the falsy numbers. */
    predicate Falsy() { this == NaN || this == Num(0.0) }
  }

  /** A transaction as the views hold it after normalisation. `transactionId`
      is the wire alias that the normalising spread carries along. */
  datatype Transaction = Transaction(
    id: string,
    reference: string,
    amount: JsNumber,
    currency: string,
    status: Status,
    createdBy: string,
    createdByEmail: Option<string>,
    approvedBy: Option<string>,
    approvedByEmail: Option<string>,
    createdAt: string,
    updatedAt: string,
    transactionId: Option<string>)

  /** A failed call: the HTTP status of the error response, when there was one. */
  datatype ApiError = ApiError(status: Option<int>)

  /** The settled result of one asynchronous call to the remote service. */
  datatype Outcome<T> = Success(value: T) | Failure(error: ApiError)

  /** The browser's persisted `access_token` storage entry, shared by the session
      provider and the HTTP client. */
  class TokenStore {
    var accessToken: Option<string>

    constructor (initial: Option<string>)
      ensures accessToken == initial
    {
      accessToken := initial;
    }
  }

  /** `if (token)`: an entry that is present and not the empty string. */
  predicate Stored(token: Option<string>) {
    token.Some? && token.value != ""
  }
}

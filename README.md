# front-cap transaction client, modelled in Dafny

front-cap is a browser client for approval-gated financial transactions.
Operators create transactions and submit drafts. Approvers approve or reject
pending ones. An approved transaction can be executed. The remote service
enforces the workflow; the client mirrors it to decide which buttons to show,
asks for one transition at a time, and reads the result back.

This project models the client's logic:

- the session provider: token decoding, expiry, restore at start-up, login
  and logout, over a shared token slot;
- the HTTP client: which request each call issues, the record normalisation,
  the bearer-token interceptor and the 401 purge;
- the status stepper and the status badge;
- the pages: detail, list, pending approvals, create, login and dashboard,
  and the layout's role-filtered navigation.

Each page's state is a `class` whose methods do what the page's handlers do.
Every asynchronous call is one step whose settled result is a parameter
(`Outcome<T>`). Methods return the requests they issue (`Api.Request`).

`Lifecycle` is the workflow table the service enforces: which action leaves
which status, and which role may ask for it. The client never applies it. It
is the independent reference that the pages' button rules are proved against.

Where the code and the usual reading of its rules differ, the model follows
the code:

- A token is accepted up to and including the millisecond its `exp` names.
  The comparison `exp * 1000 < Date.now()` is strict, so a token is rejected
  only one millisecond later (`AuthContext.ExpiryBoundary`). A token without
  `exp` never expires.
- A failed login does not clear a user who was already signed in.
- The detail page offers Execute on an approved transaction to any viewer,
  including one with no role. The list page never offers Execute.
- The navigation also accepts the role strings `OPERADOR` and `APROBADOR`.
  No other view does.
- With no action chosen, the pending page still titles its dialog "Reject
  Transaction" (`PendingApprovals.UnchosenTitleDiffers`).

## Model

| member | source | states |
|---|---|---|
| Domain.RoleOf | src/types/index.ts:1 | a role string maps to a role exactly when it is that role's wire name, 'OPERATOR' or 'APPROVER'; any other string gives no role |
| Text.Lower | src/pages/TransactionList.tsx:143-145 | lower-casing keeps the length and maps every character independently |
| Text.ContainsAt | src/pages/TransactionList.tsx:143-145 | the recursive `includes` agrees with "the substring occurs at some position", in both directions |
| Text.BeforeFirst | src/contexts/AuthContext.tsx:43 | `split(c)[0]` is a prefix holding no `c`, and when it is shorter than the string a `c` follows it |
| Text.NatToString | src/pages/PendingApprovals.tsx:148 | a count prints as a non-empty string of decimal digits, one digit exactly for counts below ten |
| Text.NatToStringRoundTrip | src/pages/PendingApprovals.tsx:148 | reading a printed count back as a decimal number gives the count |
| Text.RenderContains | src/pages/TransactionList.tsx:370-373 | every piece of a copy template appears in the rendered string |
| Lifecycle.TerminalStatuses | src/pages/TransactionDetail.tsx:172-215 | Rejected and Executed have no outgoing transition; each of the other three statuses has one |
| StatusStepper.FindIndex | src/components/StatusStepper.tsx:19-22 | the first step holding the status, or -1 exactly when no step holds it |
| StatusStepper.StatusIndex | src/components/StatusStepper.tsx:19-22 | the current index always lies on the displayed row and holds the current status there, a rejection being placed right after Pending; its value per status is in StatusStepper.StatusIndexValues |
| StatusStepper.DisplaySteps | src/components/StatusStepper.tsx:28-30 | definition; the statuses it shows are stated in StatusStepper.DisplayedStatuses |
| StatusStepper.Project | src/components/StatusStepper.tsx:35-39 | one view per displayed step, drawing that step; its flags are stated in StatusStepper.ExactlyOneActive, StatusStepper.PastSteps and StatusStepper.DestructiveOnlyWhenRejected |
| StatusStepper.Connectors | src/components/StatusStepper.tsx:67-72 | one connector fewer than displayed steps; which are highlighted is stated in StatusStepper.ConnectorFlags |
| StatusStepper.DisplayedStatuses | src/components/StatusStepper.tsx:10-30 | the row is Draft, Pending, Approved, Executed; for a rejection it collapses to Draft, Pending, Rejected |
| StatusStepper.StatusIndexValues | src/components/StatusStepper.tsx:19-22 | the current index of each status; a rejection sits at 2, right after Pending |
| StatusStepper.ExactlyOneActive | src/components/StatusStepper.tsx:24-37 | exactly one displayed step is active, the one at the current index |
| StatusStepper.PastSteps | src/components/StatusStepper.tsx:35-50 | a displayed step is past iff the active step lies after it; the active step is never past; the steps after it are neither past nor active |
| StatusStepper.ConnectorFlags | src/components/StatusStepper.tsx:67-72 | there is one connector fewer than steps, and connector i is highlighted iff i lies before the current index |
| StatusStepper.DestructiveOnlyWhenRejected | src/components/StatusStepper.tsx:37-48 | destructive styling is drawn on a step iff the transaction is rejected and the step is the active one |
| StatusStepper.PastAtTheEnds | src/components/StatusStepper.tsx:19-38 | a draft has no past steps; on an executed or rejected transaction every step but the last is past and the last is active |
| StatusBadge.Config | src/components/StatusBadge.tsx:10-31 | definition; that no two statuses share a caption or a class is stated in StatusBadge.ConfigInjective |
| StatusBadge.SizeClass | src/components/StatusBadge.tsx:33-37 | definition; how the chip uses it is stated in StatusBadge.Render and StatusBadge.DefaultSizeIsSmall |
| StatusBadge.Render | src/components/StatusBadge.tsx:39-57 | the chip shows the status's caption and carries the base class, the status class, the size class (small by default) and a non-empty extra class; no class is empty |
| StatusBadge.ConfigInjective | src/components/StatusBadge.tsx:10-31 | no two statuses share a caption or a style class |
| StatusBadge.DefaultSizeIsSmall | src/components/StatusBadge.tsx:39-43 | omitting the size draws the same chip as asking for the small size |
| Api.StatusParams | src/lib/api.ts:96-97 | a list request sends a `status` parameter iff a status is given, with that status's wire name, and sends no other parameter |
| Api.TransitionPathsDistinct | src/lib/api.ts:112-130 | for one id, two different actions never share an endpoint path |
| Api.OrElse | src/lib/api.ts:80-86 | a present, non-empty string is kept; a missing or empty one gives way to the default |
| Api.NormalizeAmount | src/lib/api.ts:87-90 | a textual amount is parsed, a truthy number is kept, and a falsy or missing amount becomes 0 |
| Api.Path | src/lib/api.ts:55-140 | every call but the login exchange goes under /api/v2/transactions, and the login exchange does not |
| Api.Normalize | src/lib/api.ts:72-92 | the id falls back to `transaction_id` and is empty only when both are missing; a missing status is DRAFT; reference, currency and creator are kept when present and empty otherwise; the creation and update dates are kept when present and are the clock's time otherwise; the amount is normalised and the emails, approver and `transaction_id` pass through |
| Api.NormalizeIdempotent | src/lib/api.ts:72-92 | normalising a record that is already normalised gives the same record back, for a non-NaN amount |
| Api.NaNAmountNotStable | src/lib/api.ts:87-90 | an unparsable amount string normalises to NaN, and a second normalisation turns that NaN into 0 |
| Api.NormalizeAll | src/lib/api.ts:96-100 | the list is normalised record by record, keeping its length and order |
| Api.GetAll | src/lib/api.ts:96-100 | a successful list call yields every record normalised in server order; a failed call fails with the same error |
| Api.PendingCount | src/lib/api.ts:137-142 | the pending count is the number of records the pending list returns; a failed call fails with the same error |
| Api.BearerValue | src/lib/api.ts:30 | the header value is the word Bearer and one space, then exactly the token |
| Api.WithBearer | src/lib/api.ts:27-33 | Authorization is set to the bearer value iff a token is stored; no other header changes and none is added |
| Api.AttachToken | src/lib/api.ts:27-33 | the request interceptor edits the configuration's headers as `WithBearer` describes |
| Api.RejectError | src/lib/api.ts:35-44 | the error is rejected again unchanged; the stored token is purged iff the response status is 401 |
| AuthContext.Expired | src/contexts/AuthContext.tsx:33-34 | definition; its boundary is stated in AuthContext.ExpiryBoundary |
| AuthContext.ViewerOf | src/pages/TransactionDetail.tsx:172-183 | the role test `user?.role === 'OPERATOR'` (or `'APPROVER'`) holds iff there is a user carrying exactly that role string; no user or any other string gives no role |
| AuthContext.RestoreSpec | src/contexts/AuthContext.tsx:53-60 | loading always ends and the error is untouched; without a stored token nothing else changes; with one the user is what the token decodes to, and the token stays stored only when a user results |
| AuthContext.ErrorMessage | src/contexts/AuthContext.tsx:78-80 | a thrown Error reports its own message; any other thrown value reports 'Invalid credentials. Please try again.' |
| AuthContext.LoginSpec | src/contexts/AuthContext.tsx:62-86 | definition; its three outcomes are stated in AuthContext.LoginAccepted, AuthContext.LoginBadToken and AuthContext.LoginExchangeFailed |
| AuthContext.LogoutSpec | src/contexts/AuthContext.tsx:88-92 | logging out clears the user, the token and the error, and leaves loading alone |
| AuthContext.ExpiryBoundary | src/contexts/AuthContext.tsx:34-37 | a token is still accepted at the millisecond of its expiry and rejected one millisecond later |
| AuthContext.ToUser | src/contexts/AuthContext.tsx:39-44 | the user's id is the subject; the email falls back to the subject and the role to OPERATOR; the name is the email's local part (never empty and without '@'), or 'User' |
| AuthContext.DecodeUser | src/contexts/AuthContext.tsx:29-51 | a user results iff the token decodes and is not expired, and it is the claims' user |
| AuthContext.ClaimsRoundTrip | src/contexts/AuthContext.tsx:39-46 | an unexpired token whose claims carry an email and a role gives a user with exactly that id, email and role |
| AuthContext.LoginAccepted | src/contexts/AuthContext.tsx:62-73 | a good token is stored and becomes the user; the error is cleared, loading ends and nothing is thrown |
| AuthContext.LoginBadToken | src/contexts/AuthContext.tsx:69-82 | a token that gives no user is purged; 'Invalid token received' is reported and rethrown, and the previous user is kept |
| AuthContext.LoginExchangeFailed | src/contexts/AuthContext.tsx:77-82 | a failed exchange leaves the token and the user alone, reports the thrown message (or the default) and rethrows the same value |
| AuthContext.LogoutIdempotent | src/contexts/AuthContext.tsx:88-92 | logging out twice is logging out once, and it leaves neither a user nor a token |
| AuthContext.LoginThenRestore | src/contexts/AuthContext.tsx:53-73 | after a successful login, a restore at the same instant finds the same user and keeps the token |
| AuthContext.RestoreExpired | src/contexts/AuthContext.tsx:53-60 | an expired stored token restores to no user and is purged, and loading ends |
| AuthContext.Session.IsAuthenticated | src/contexts/AuthContext.tsx:98 | the session is authenticated iff there is a user |
| AuthContext.Session.constructor | src/contexts/AuthContext.tsx:25-27 | the provider starts with no user, no error, and loading |
| AuthContext.Session.DecodeAndSetUser | src/contexts/AuthContext.tsx:29-51 | the result is the decoded user, and the stored token is removed iff no user results |
| AuthContext.Session.Restore | src/contexts/AuthContext.tsx:53-60 | the new provider state is the restore step applied to the old one |
| AuthContext.Session.Login | src/contexts/AuthContext.tsx:62-86 | issues the login call with the credentials; the new state and the rethrown value are the login step applied to the old state |
| AuthContext.Session.Logout | src/contexts/AuthContext.tsx:88-92 | the new state is the logout step applied to the old one |
| ReferenceSearch.Matches | src/pages/TransactionList.tsx:143-145 | definition; that the search keeps exactly the matching rows is stated in ReferenceSearch.Filter |
| ReferenceSearch.Filter | src/pages/TransactionList.tsx:143-145 | a row is kept iff its lower-cased reference contains the lower-cased query; nothing is added |
| ReferenceSearch.FilterAppend | src/pages/TransactionList.tsx:143-145 | searching distributes over concatenation, so the kept rows keep their relative order |
| ReferenceSearch.EmptyQueryKeepsAll | src/pages/TransactionList.tsx:143-145 | the empty query keeps every row, in order |
| ReferenceSearch.FilterIdempotent | src/pages/TransactionList.tsx:143-145 | searching the result again with the same query changes nothing |
| ReferenceSearch.LowerIdempotent | src/pages/TransactionList.tsx:143-145 | lower-casing twice is lower-casing once |
| ReferenceSearch.QueryCaseIgnored | src/pages/PendingApprovals.tsx:97-99 | a query and its lower-cased form select the same rows |
| DialogCopy.NamedIsRendered | src/pages/TransactionDetail.tsx:341-346 | a value the dialog interpolates appears in the rendered description |
| DialogCopy.WarningIsRendered | src/pages/TransactionList.tsx:370-373 | a description that carries the warning shows the sentence 'This action cannot be undone.' |
| TransactionDetail.Actions | src/pages/TransactionDetail.tsx:172-215 | Execute is offered iff the transaction is approved, whoever looks; without a user nothing else is offered; the rest is stated in TransactionDetail.ActionsFollowLifecycle |
| TransactionDetail.ActionsFollowLifecycle | src/pages/TransactionDetail.tsx:172-215 | for a signed-in viewer, the page offers an action iff the workflow permits that role to take it from the current status |
| TransactionDetail.ActionsWithoutUserOrWhenTerminal | src/pages/TransactionDetail.tsx:172-215 | without a user only Execute shows, and only on an approved transaction; a rejected or executed one shows nothing to anyone |
| TransactionDetail.UnknownRoleSeesNoRoleActions | src/pages/TransactionDetail.tsx:172-215 | a user whose role string is neither OPERATOR nor APPROVER is offered what no user is: Execute on an approved transaction only |
| TransactionDetail.Buttons | src/pages/TransactionDetail.tsx:172-215 | one button per offered action, in order, each disabled exactly while an action is in flight |
| TransactionDetail.ScreenOf | src/pages/TransactionDetail.tsx:121-146 | the skeleton shows iff the page is loading, 'not found' iff it has loaded no transaction, and otherwise the loaded transaction |
| TransactionDetail.Title | src/pages/TransactionDetail.tsx:335-340 | the dialog has a title iff an action is chosen |
| TransactionDetail.Description | src/pages/TransactionDetail.tsx:341-346 | every description names the reference; only Reject warns that it cannot be undone; Execute also names the formatted amount; no action, no copy |
| TransactionDetail.DescriptionShowsReference | src/pages/TransactionDetail.tsx:341-346 | the rendered description of any action contains the reference |
| TransactionDetail.ConfirmCaption | src/pages/TransactionDetail.tsx:360-363 | the confirm caption is non-empty and begins the title when an action is chosen, and is empty otherwise |
| TransactionDetail.CreatorLine | src/pages/TransactionDetail.tsx:282 | the creator's email, or 'Unknown' when it is missing or empty |
| TransactionDetail.ApprovalLineOf | src/pages/TransactionDetail.tsx:286-295 | the approval line appears iff there is an approver email; it says 'Rejected By' iff the transaction is rejected and 'Approved By' otherwise |
| TransactionDetail.DemoTransaction | src/pages/TransactionDetail.tsx:57-72 | the demo record carries the requested id, is pending and has no approver |
| TransactionDetail.DetailView.constructor | src/pages/TransactionDetail.tsx:43-49 | the page starts loading, with no transaction, no action in flight and the dialog closed |
| TransactionDetail.DetailView.Shown | src/pages/TransactionDetail.tsx:121-148 | the page shows the skeleton iff it is loading, 'not found' iff it has loaded no transaction, and otherwise the transaction it holds |
| TransactionDetail.DetailView.FetchTransaction | src/pages/TransactionDetail.tsx:51-76 | without a route id nothing is fetched and the page keeps loading; otherwise it fetches by id, installs the record (or the demo record on failure) and stops loading |
| TransactionDetail.DetailView.OpenDialog | src/pages/TransactionDetail.tsx:172-215 | a button opens the dialog for its own action |
| TransactionDetail.DetailView.DismissDialog | src/pages/TransactionDetail.tsx:330-331 | closing without confirming resets the dialog |
| TransactionDetail.DetailView.HandleAction | src/pages/TransactionDetail.tsx:82-112 | without a route id nothing happens; otherwise the action's endpoint is called, a success refetches the record, and the busy flag and dialog are reset whatever the outcome |
| TransactionDetail.DetailView.Confirm | src/pages/TransactionDetail.tsx:329-351 | the dialog always ends closed and reset; with no action chosen, or no route id, nothing is issued and the page is untouched; otherwise the requests and the new page state are exactly those of performing the chosen action |
| TransactionList.OptionValue | src/pages/TransactionList.tsx:40-47 | an option's value is 'ALL' iff it is the All option, and otherwise the status's wire name; distinct options have distinct values (TransactionList.StatusOptionsCoverStatuses) |
| TransactionList.OptionCaption | src/pages/TransactionList.tsx:40-47 | definition; that each status is captioned as its badge is stated in TransactionList.StatusOptionsCoverStatuses |
| TransactionList.StatusOptionsCoverStatuses | src/pages/TransactionList.tsx:40-47 | the select starts with 'All' and then offers every status, each with a distinct value and captioned as its badge is |
| TransactionList.RequestedStatus | src/pages/TransactionList.tsx:67 | the list asks for no status iff 'All' is selected, and otherwise for the selected one |
| TransactionList.FilterParams | src/pages/TransactionList.tsx:67-68 | the request carries a `status` parameter iff the filter is not 'All', and its value is the selected option's value |
| TransactionList.RowActionsFollowLifecycle | src/pages/TransactionList.tsx:300-347 | a row offers an action iff the workflow permits it to the viewer's role, except Execute, which the list never offers |
| TransactionList.RowActionsAreDetailActions | src/pages/TransactionList.tsx:300-347 | a row offers what the detail page offers, less Execute; without a user it offers nothing |
| TransactionList.ViewLink | src/pages/TransactionList.tsx:294 | the view link is '/transactions/' followed by exactly the row's id |
| TransactionList.RowActions | src/pages/TransactionList.tsx:300-335 | a row never offers Execute and, without a user, offers nothing; the rest is stated in TransactionList.RowActionsFollowLifecycle |
| TransactionList.RowOf | src/pages/TransactionList.tsx:292-349 | a row links to its transaction and offers the row's actions in order, each disabled exactly while an action on that row is in flight |
| TransactionList.BodyOf | src/pages/TransactionList.tsx:249-352 | placeholders iff loading; 'No transactions found' iff loaded and the search leaves nothing; otherwise one row per matching transaction, in order |
| TransactionList.Title | src/pages/TransactionList.tsx:365-369 | the title is empty iff no action or Execute is chosen, and otherwise agrees with the detail page's title |
| TransactionList.ConfirmCaption | src/pages/TransactionList.tsx:386-388 | the caption begins the title, and is non-empty iff an action other than Execute is chosen |
| TransactionList.Description | src/pages/TransactionList.tsx:370-373 | the description names the reference and the chosen action's word, and warns iff the action is Reject |
| TransactionList.DescriptionShowsActionAndReference | src/pages/TransactionList.tsx:371 | the rendered description contains both the action word and the reference |
| TransactionList.DemoTransactions | src/pages/TransactionList.tsx:70-133 | five demo records with pairwise distinct ids and references |
| TransactionList.DemoCoversStatuses | src/pages/TransactionList.tsx:73-133 | the demo list holds a record in every status |
| TransactionList.ListView.constructor | src/pages/TransactionList.tsx:53-63 | the page starts loading, with no records, an empty search, the 'All' filter, no row busy and the dialog reset |
| TransactionList.ListView.FetchTransactions | src/pages/TransactionList.tsx:65-137 | asks for the filter's status, installs the records (or the demo list on failure) and stops loading |
| TransactionList.ListView.SetSearchQuery | src/pages/TransactionList.tsx:214-219 | only the search query changes |
| TransactionList.ListView.Visible | src/pages/TransactionList.tsx:143-145 | the rows shown are no more than those fetched, and a record is shown iff it was fetched and its reference matches the search |
| TransactionList.ListView.SetStatusFilter | src/pages/TransactionList.tsx:139-141 | choosing a different filter records it and fetches again with its status, installing the result or the demo list; re-choosing the current filter issues nothing and changes nothing |
| TransactionList.ListView.OpenConfirmDialog | src/pages/TransactionList.tsx:181-183 | the dialog opens recording the action, the row's id and its reference |
| TransactionList.ListView.DismissDialog | src/pages/TransactionList.tsx:359-362 | dismissing closes the dialog and keeps what it recorded |
| TransactionList.ListView.HandleAction | src/pages/TransactionList.tsx:154-179 | the action's endpoint is called for the row; a success refetches the list with the current filter; the busy row and the dialog are reset whatever the outcome |
| TransactionList.ListView.Confirm | src/pages/TransactionList.tsx:359-379 | without both a non-empty id and an action the dialog only closes, keeping its record, and nothing is issued; otherwise the requests and the new page state are exactly those of performing that action on that id, and the dialog ends reset |
| PendingApprovals.PendingRequestParams | src/pages/PendingApprovals.tsx:46-49 | the page asks for `status=PENDING_APPROVAL`, the same request the pending count makes |
| PendingApprovals.CountText | src/pages/PendingApprovals.tsx:147-149 | the header begins with the count's digits; the rest is stated in PendingApprovals.CountTextReadsBack and PendingApprovals.CountTextPlural |
| PendingApprovals.CountTextReadsBack | src/pages/PendingApprovals.tsx:147-149 | the header starts with the count: the text before its first space is all digits and reads back as the number of rows shown |
| PendingApprovals.CountTextPlural | src/pages/PendingApprovals.tsx:148 | 'transaction' takes an 's' iff the count is not one |
| PendingApprovals.RowActionsOnPending | src/pages/PendingApprovals.tsx:226-260 | on a pending transaction the row's Approve and Reject are exactly what the workflow lets an approver do; Approve is permitted from no other status |
| PendingApprovals.RowOf | src/pages/PendingApprovals.tsx:224-262 | a row links to its transaction and offers Approve then Reject, both disabled exactly while an action on that row is in flight |
| PendingApprovals.BodyOf | src/pages/PendingApprovals.tsx:181-265 | placeholders iff loading; 'All caught up!' iff loaded and the search leaves nothing; otherwise one row per matching transaction, in order |
| PendingApprovals.Title | src/pages/PendingApprovals.tsx:279 | the title is the list's Approve title for Approve and its Reject title for anything else |
| PendingApprovals.ConfirmCaption | src/pages/PendingApprovals.tsx:297 | the caption begins the title, and is 'Approve' iff Approve is chosen |
| PendingApprovals.Description | src/pages/PendingApprovals.tsx:282-283 | the description names the reference and the chosen action's word, and warns that it cannot be undone iff the action is Reject |
| PendingApprovals.DescriptionAsList | src/pages/PendingApprovals.tsx:282-283 | the page's description is the transaction list's, and a reject confirmation renders the warning beside the reference |
| PendingApprovals.UnchosenTitleDiffers | src/pages/PendingApprovals.tsx:278-280 | with no action chosen this page titles the dialog 'Reject Transaction', where the list leaves it blank |
| PendingApprovals.DemoTransactions | src/pages/PendingApprovals.tsx:53-87 | three demo records, all pending, with distinct ids |
| PendingApprovals.PendingView.constructor | src/pages/PendingApprovals.tsx:35-44 | the page starts loading, with no records, an empty search, no row busy and the dialog reset |
| PendingApprovals.PendingView.FetchTransactions | src/pages/PendingApprovals.tsx:46-91 | asks for the pending list, installs it (or the demo list on failure) and stops loading |
| PendingApprovals.PendingView.SetSearchQuery | src/pages/PendingApprovals.tsx:158-161 | only the search query changes |
| PendingApprovals.PendingView.Visible | src/pages/PendingApprovals.tsx:97-99 | the rows shown are no more than those fetched, and a record is shown iff it was fetched and its reference matches the search |
| PendingApprovals.PendingView.Header | src/pages/PendingApprovals.tsx:148 | the header is the count line of the searched list, and its leading number is all digits and reads back as the number of rows shown, not the number fetched |
| PendingApprovals.PendingView.OpenConfirmDialog | src/pages/PendingApprovals.tsx:132-134 | the dialog opens recording the action, the row's id and its reference |
| PendingApprovals.PendingView.DismissDialog | src/pages/PendingApprovals.tsx:272-275 | dismissing closes the dialog and keeps what it recorded |
| PendingApprovals.PendingView.HandleAction | src/pages/PendingApprovals.tsx:108-130 | approve or reject is called for the row; a success refetches the pending list; the busy row and the dialog are reset whatever the outcome |
| PendingApprovals.PendingView.Confirm | src/pages/PendingApprovals.tsx:272-290 | without both a non-empty id and an action the dialog only closes, keeping its record, and nothing is issued; otherwise the requests and the new page state are exactly those of performing that action on that id, and the dialog ends reset |
| CreateTransaction.AmountError | src/pages/CreateTransaction.tsx:28 | the amount passes iff it is a number above zero; NaN fails with the type message, and a number at or below zero with the form's message |
| CreateTransaction.CurrencyError | src/pages/CreateTransaction.tsx:29 | the currency passes iff it is non-empty, and otherwise fails with 'Please select a currency' |
| CreateTransaction.Validate | src/pages/CreateTransaction.tsx:27-30 | both fields are checked and each field's message is its own rule's verdict |
| CreateTransaction.ValidateAccepts | src/pages/CreateTransaction.tsx:27-30 | the schema accepts exactly a positive number with a non-empty currency |
| CreateTransaction.DefaultCurrencyOffered | src/pages/CreateTransaction.tsx:20-37 | the default currency is one of the options, and no option fails the currency rule |
| CreateTransaction.CreateForm.constructor | src/pages/CreateTransaction.tsx:36-40 | the form starts with an empty amount, MXN, no messages, not busy and nothing created |
| CreateTransaction.CreateForm.SetAmount | src/pages/CreateTransaction.tsx:36 | only the amount text changes |
| CreateTransaction.CreateForm.SetCurrency | src/pages/CreateTransaction.tsx:37 | only the currency changes |
| CreateTransaction.CreateForm.HandleSubmit | src/pages/CreateTransaction.tsx:42-86 | the messages become the schema's verdict on the parsed amount; the create call is issued iff there is none; a success records the new id and reference; the form is not busy afterwards |
| CreateTransaction.CreateForm.CreateAnother | src/pages/CreateTransaction.tsx:114-120 | back to the form with no record and an empty amount, keeping the currency |
| LoginPage.From | src/pages/Login.tsx:35-37 | the target is the page the user came from when there is one, and '/dashboard' otherwise |
| LoginPage.Validate | src/pages/Login.tsx:17-20 | the email message appears iff the email is malformed, the password message iff the password is empty; no general message |
| LoginPage.ValidateAccepts | src/pages/Login.tsx:17-20 | the schema accepts exactly a well-formed email with a non-empty password |
| LoginPage.LoginForm.constructor | src/pages/Login.tsx:27-33 | the form starts empty, with no messages and no navigation |
| LoginPage.LoginForm.HandleSubmit | src/pages/Login.tsx:39-61 | a failing check records its messages and calls nothing; otherwise the session logs in with the email; a rethrow leaves only the general message, and success navigates to the target |
| LoginPage.NavigatesIffSignedIn | src/pages/Login.tsx:55-60 | the page navigates iff the exchange issued a token that decodes, unexpired, to a user, and then the session has that user |
| AppLayout.VisibleNav | src/components/AppLayout.tsx:59-61 | definition; what each role sees is stated in AppLayout.VisibleNavByRole |
| AppLayout.IsActive | src/components/AppLayout.tsx:134 | definition; that at most one visible entry is highlighted is stated in AppLayout.AtMostOneActive |
| AppLayout.FilterNav | src/components/AppLayout.tsx:59-61 | an entry is kept iff there is a user and the user's role string is in the entry's list; nothing is shown without a user |
| AppLayout.FilterNavAppend | src/components/AppLayout.tsx:59-61 | filtering distributes over concatenation, so visible entries keep their declared order |
| AppLayout.FilterNavPair | src/components/AppLayout.tsx:23-48 | two entries listed for the same roles are shown together or not at all |
| AppLayout.VisibleNavSplit | src/components/AppLayout.tsx:23-61 | the visible entries are the operators' pair, then the approvers' pair, each when the role string is listed for it |
| AppLayout.VisibleNavByRole | src/components/AppLayout.tsx:23-61 | OPERATOR and OPERADOR see Create and My Transactions; APPROVER and APROBADOR see Pending Approvals and All Transactions; any other role and no user see nothing |
| AppLayout.AtMostOneActive | src/components/AppLayout.tsx:132-134 | whatever the role and the location, at most one visible entry is highlighted |
| AppLayout.DisplayName | src/components/AppLayout.tsx:86-88 | the header shows the user's name, or the email when the name is empty, and nothing without a user |
| AppLayout.AvatarInitial | src/components/AppLayout.tsx:94-97 | the avatar letter is the upper-cased first character of the name, else of the email; it is empty iff both are empty or there is no user |
| AppLayout.SignedInUserShowsName | src/components/AppLayout.tsx:86-97 | for a user built from a token, the header shows its name and the avatar letter comes from that name |
| AppLayout.MobileMenu.constructor | src/components/AppLayout.tsx:57 | the mobile menu starts closed |
| AppLayout.MobileMenu.Toggle | src/components/AppLayout.tsx:116 | the menu button flips the menu's open flag |
| AppLayout.MobileMenu.Close | src/components/AppLayout.tsx:156-179 | a click on the overlay or on an entry closes the menu |
| Dashboard.Greeting | src/pages/Dashboard.tsx:46-51 | morning before 12, afternoon from 12 to before 18, evening from 18, each iff the hour is in its range |
| Dashboard.GreetedName | src/pages/Dashboard.tsx:59 | the greeted name is never empty: the user's name when it has one, and 'User' otherwise |
| Dashboard.Counts | src/pages/Dashboard.tsx:76-113 | the cards read the fetched counts, and every count is 0 while there are no stats |
| Dashboard.Cards | src/pages/Dashboard.tsx:76-114 | five cards in order, each with its count: the total, Draft, Pending Approval, Approved, then Rejected for an approver and Executed for anyone else; all zero without stats |
| Dashboard.NonZero | src/pages/Dashboard.tsx:184-186 | the denominator is always positive and equals the count when the count is positive |
| Dashboard.Percent | src/pages/Dashboard.tsx:184-186 | a rate is never negative, is 0 for a zero part, and is at most 100 when the part does not exceed a positive whole |
| Dashboard.RatesOf | src/pages/Dashboard.tsx:183-187 | all rates are 0 without stats; otherwise approved and rejected are taken out of the total and executed out of the approved |
| Dashboard.RatesGuarded | src/pages/Dashboard.tsx:184-186 | empty counts give zero rates instead of a division by zero; with a positive denominator each rate is the plain ratio |
| Dashboard.BlockOf | src/pages/Dashboard.tsx:122-177 | quick actions iff the viewer is an operator; the pending-reviews block iff an approver, showing the pending count |
| Dashboard.DemoStatsConsistent | src/pages/Dashboard.tsx:30-37 | the demo total is the sum of the demo's per-status counts |
| Dashboard.DashboardView.constructor | src/pages/Dashboard.tsx:19-20 | the dashboard starts loading, with no stats |
| Dashboard.DashboardView.FetchStats | src/pages/Dashboard.tsx:23-41 | asks for the stats, installs them (or the demo stats on failure) and stops loading |

## Left out

- AuthContext.Expired: models the `exp` claim as a whole number of seconds. Section 4.1.4 of RFC 7519 allows a NumericDate with a fraction; the page compares such a value the same way, but the model does not take one.
- Transport: the base URL, axios, form encoding and JSON bodies are not modelled. Every call is a `Request` value plus a settled `Outcome`.
- The redirect to '/login' on a 401 (`window.location.href`) is browser navigation and is not modelled. Only the token purge is.
- The JWT decoder is a parameter (`jwt`): signatures and base64 are not modelled. A token whose claims make the decoder or `split` throw is an undecodable token.
- The clock (`Date.now`, `new Date().toISOString()`, `getHours`) enters as parameters (`now`, `nowIso`, `hour`). One `nowIso` serves both date defaults of `Api.Normalize`, where the code reads the clock once for each (src/lib/api.ts:87-88), so the two defaults can differ by a tick there but not in the model.
- `parseFloat` is a parameter (`parse`). Infinities are not modelled: a number is finite or NaN.
- The form schema's email regular expression is a parameter (`isEmail`).
- Currency formatting (`Intl.NumberFormat`) and date formatting are not modelled. The Execute description takes the formatted amount as a string.
- `toLowerCase` and `toUpperCase` are modelled for ASCII letters only. Unicode case mapping is not modelled.
- A status string outside the five the type declares is not modelled. The wire status is already one of them, or missing.
- A login response without `access_token` is not modelled: the exchange either yields a token string or throws.
- Each asynchronous handler runs to completion in one step. The busy flags (`isLoading`, `actionLoading`) being up while a call is pending cannot be observed. Late results after a page unmounts, and an effect re-running before the previous fetch settles, are not modelled. The un-awaited refetch after an action is taken to settle before that action's `finally`.
- Toasts, console logging, icons, CSS other than the status badge's classes, animations and the number of skeleton rows are not modelled.
- Role-dependent headings and subtitles, the 'Created By' column, the 'New Transaction' link, the amount preview on the create form and the 'View Transaction' button after creation are presentation only and are not modelled.
- Routing (`App.tsx`, the protected-route guard), `StatCard` and the not-found page are not part of this model.
- Api.NormalizeIdempotent: holds only when the clock's timestamp is non-empty and the normalised amount is not NaN. A NaN amount is not stable: the second pass makes it 0 (`Api.NaNAmountNotStable`).
- Dashboard.RatesOf: states the rates before `Math.round`. Rounding to whole percentages is not modelled.
- Dashboard.Counts: the counts are natural numbers. A negative, fractional or missing count from the service is not modelled.
- TransactionList.ListView.OpenConfirmDialog: requires an action other than Execute. The page's own type admits only submit, approve and reject. The same holds for TransactionList.ListView.HandleAction and TransactionList.ListView.Confirm.
- PendingApprovals.PendingView.OpenConfirmDialog: requires Approve or Reject. The page's own type admits only those two. The same holds for PendingApprovals.PendingView.HandleAction and PendingApprovals.PendingView.Confirm.

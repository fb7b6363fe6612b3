/** The landing page: a greeting by the hour, five counters whose last one
    depends on the role, a role-specific block, and three rates whose
    denominators never vanish. */
module Dashboard {
  import opened Domain
  import Api
  import AuthContext

  /** `TransactionStats`: counts by status and in total. */
  datatype Stats = Stats(total: nat, draft: nat, pendingApproval: nat, approved: nat, rejected: nat, executed: nat)

  /** `getGreeting`, on the local hour. */
  function Greeting(hour: int): (g: string)
    ensures hour < 12 <==> g == "Good morning"
    ensures 12 <= hour < 18 <==> g == "Good afternoon"
    ensures hour >= 18 <==> g == "Good evening"
  {
    if hour < 12 then "Good morning"
    else if hour < 18 then "Good afternoon"
    else "Good evening"
  }

  /** The greeted name, `user?.name || 'User'`. */
  function GreetedName(user: Option<AuthContext.User>): (n: string)
    ensures n != ""
    ensures user.Some? && user.value.name != "" ==> n == user.value.name
    ensures user.None? || user.value.name == "" ==> n == "User"
  {
    if user.Some? && user.value.name != "" then user.value.name else "User"
  }

  /** One counter card. */
  datatype Card = Card(caption: string, value: nat)

  /** The counts the cards read, `stats?.<field> || 0`: every one 0 while
      there are no stats. */
  function Counts(stats: Option<Stats>): (c: Stats)
    ensures stats.Some? ==> c == stats.value
    ensures stats.None? ==> c.total == 0 && c.draft == 0 && c.pendingApproval == 0 &&
                            c.approved == 0 && c.rejected == 0 && c.executed == 0
  {
    if stats.Some? then stats.value else Stats(0, 0, 0, 0, 0, 0)
  }

  /** The five cards: total, draft, pending and approved, then Rejected for
      an approver and Executed for anyone else. */
  function Cards(viewer: Option<Role>, stats: Option<Stats>): (cs: seq<Card>)
    ensures |cs| == 5
    ensures cs[0] == Card("Total Transactions", Counts(stats).total)
    ensures cs[1] == Card("Draft", Counts(stats).draft)
    ensures cs[2] == Card("Pending Approval", Counts(stats).pendingApproval)
    ensures cs[3] == Card("Approved", Counts(stats).approved)
    ensures viewer == Some(Approver) ==> cs[4] == Card("Rejected", Counts(stats).rejected)
    ensures viewer != Some(Approver) ==> cs[4] == Card("Executed", Counts(stats).executed)
    ensures stats.None? ==> forall i :: 0 <= i < |cs| ==> cs[i].value == 0
  {
    [Card("Total Transactions", Counts(stats).total),
     Card("Draft", Counts(stats).draft),
     Card("Pending Approval", Counts(stats).pendingApproval),
     Card("Approved", Counts(stats).approved),
     if viewer == Some(Approver) then Card("Rejected", Counts(stats).rejected)
     else Card("Executed", Counts(stats).executed)]
  }

  /** `x || 1` on a count. */
  function NonZero(d: nat): (r: nat)
    ensures r > 0
    ensures d > 0 ==> r == d
  {
    if d == 0 then 1 else d
  }

  /** A percentage before rounding: `part / (whole || 1) * 100`. */
  function Percent(part: nat, whole: nat): (p: real)
    ensures p >= 0.0
    ensures whole > 0 && part <= whole ==> p <= 100.0
    ensures part == 0 ==> p == 0.0
  {
    (part as real) / (NonZero(whole) as real) * 100.0
  }

  /** The three rates of the overview, unrounded: approved and rejected out
      of the total, executed out of the approved; all 0 without stats. */
  datatype Rates = Rates(approvedRate: real, executionRate: real, rejectionRate: real)

  function RatesOf(stats: Option<Stats>): (r: Rates)
    ensures stats.None? ==> r == Rates(0.0, 0.0, 0.0)
    ensures stats.Some? ==> r.approvedRate == Percent(stats.value.approved, stats.value.total)
    ensures stats.Some? ==> r.executionRate == Percent(stats.value.executed, stats.value.approved)
    ensures stats.Some? ==> r.rejectionRate == Percent(stats.value.rejected, stats.value.total)
  {
    match stats
    case None => Rates(0.0, 0.0, 0.0)
    case Some(s) => Rates(Percent(s.approved, s.total), Percent(s.executed, s.approved), Percent(s.rejected, s.total))
  }

  /** With empty counts the guards keep every rate at 0 instead of dividing
      by zero; with a non-zero total the rates are the plain ratios. */
  lemma RatesGuarded(s: Stats)
    ensures s.total == 0 && s.approved == 0 && s.rejected == 0 && s.executed == 0 ==>
      RatesOf(Some(s)) == Rates(0.0, 0.0, 0.0)
    ensures s.total > 0 ==> RatesOf(Some(s)).approvedRate == (s.approved as real) / (s.total as real) * 100.0
    ensures s.approved > 0 ==> RatesOf(Some(s)).executionRate == (s.executed as real) / (s.approved as real) * 100.0
  {
  }

  /** The role-specific block: quick links for an operator, the pending
      count for an approver, nothing for anyone else. */
  datatype Block = QuickActions | PendingReviews(count: nat) | NoBlock

  function BlockOf(viewer: Option<Role>, stats: Option<Stats>): (b: Block)
    ensures b == QuickActions <==> viewer == Some(Operator)
    ensures b.PendingReviews? <==> viewer == Some(Approver)
    ensures b.PendingReviews? ==> b.count == Counts(stats).pendingApproval
  {
    match viewer
    case Some(Operator) => QuickActions
    case Some(Approver) => PendingReviews(Counts(stats).pendingApproval)
    case None => NoBlock
  }

  /** The stats installed when the fetch fails. */
  const DemoStats: Stats := Stats(45, 5, 12, 18, 3, 7)

  /** The demo total is the sum of its per-status counts. */
  lemma DemoStatsConsistent()
    ensures DemoStats.total == DemoStats.draft + DemoStats.pendingApproval + DemoStats.approved
                               + DemoStats.rejected + DemoStats.executed
  {
  }

  class DashboardView {
    var stats: Option<Stats>
    var isLoading: bool

    constructor ()
      ensures stats.None? && isLoading
    {
      stats := None;
      isLoading := true;
    }

    /** `fetchStats`: installs the counts, or the demo counts on failure,
        and stops loading. */
    method FetchStats(response: Outcome<Stats>) returns (issued: Api.Request)
      modifies this
      ensures issued == Api.Stats
      ensures stats == Some(if response.Success? then response.value else DemoStats)
      ensures !isLoading
    {
      issued := Api.Stats;
      match response {
        case Success(s) => stats := Some(s);
        case Failure(_) => stats := Some(DemoStats);
      }
      isLoading := false;
    }
  }
}

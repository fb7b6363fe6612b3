/** The coloured status chip: a static lookup from status to caption and
    style class, plus a size that defaults to small. */
module StatusBadge {
  import opened Domain

  datatype BadgeConfig = BadgeConfig(caption: string, className: string)

  /** `statusConfig`: one entry for each of the five statuses. */
  function Config(s: Status): BadgeConfig {
    match s
    case Draft => BadgeConfig("Draft", "status-badge-draft")
    case PendingApproval => BadgeConfig("Pending Approval", "status-badge-pending")
    case Approved => BadgeConfig("Approved", "status-badge-approved")
    case Rejected => BadgeConfig("Rejected", "status-badge-rejected")
    case Executed => BadgeConfig("Executed", "status-badge-executed")
  }

  datatype Size = Sm | Md | Lg

  function SizeClass(size: Size): string {
    match size
    case Sm => "px-2 py-0.5 text-xs"
    case Md => "px-2.5 py-1 text-sm"
    case Lg => "px-3 py-1.5 text-base"
  }

  /** The rendered chip: its caption and its class list. */
  datatype Badge = Badge(caption: string, classes: seq<string>)

  /** The chip for a status, with an optional size (small when absent) and an
      optional extra class from the caller. */
  function Render(s: Status, size: Option<Size>, extra: Option<string>): (b: Badge)
    ensures b.caption == Config(s).caption
    ensures "status-badge font-medium" in b.classes && Config(s).className in b.classes
    ensures SizeClass(if size.Some? then size.value else Sm) in b.classes
    ensures extra.Some? && extra.value != "" ==> extra.value in b.classes
    ensures forall c :: c in b.classes ==> c != ""
  {
    var sized := if size.Some? then size.value else Sm;
    var base := ["status-badge font-medium", Config(s).className, SizeClass(sized)];
    Badge(Config(s).caption, if extra.Some? && extra.value != "" then base + [extra.value] else base)
  }

  /** No two statuses share a caption or a style class, so the chip tells
      the statuses apart. */
  lemma ConfigInjective(s: Status, t: Status)
    ensures Config(s).caption == Config(t).caption ==> s == t
    ensures Config(s).className == Config(t).className ==> s == t
  {
  }

  /** Leaving the size out draws the same chip as asking for the small one. */
  lemma DefaultSizeIsSmall(s: Status, extra: Option<string>)
    ensures Render(s, None, extra) == Render(s, Some(Sm), extra)
  {
  }
}

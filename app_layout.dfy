/** The page frame: the navigation entries filtered by the signed-in user's
    role string, the active-entry test, the mobile menu's open flag, and the
    name and avatar letter in the header. */
module AppLayout {
  import opened Domain
  import Text
  import AuthContext

  /** One navigation entry and the role strings that see it. */
  datatype NavItem = NavItem(caption: string, path: string, roles: seq<string>)

  const CreateItem: NavItem := NavItem("Create Transaction", "/transactions/create", ["OPERATOR", "OPERADOR"])
  const MineItem: NavItem := NavItem("My Transactions", "/transactions", ["OPERATOR", "OPERADOR"])
  const ApprovalsItem: NavItem := NavItem("Pending Approvals", "/approvals", ["APPROVER", "APROBADOR"])
  const AllItem: NavItem := NavItem("All Transactions", "/transactions", ["APPROVER", "APROBADOR"])

  /** `navItems`, in declaration order. */
  const NavItems: seq<NavItem> := [CreateItem, MineItem, ApprovalsItem, AllItem]

  /** `items.filter(item => user && item.roles.includes(user.role))`:
      `role` is the signed-in user's role string, `None` without a user. */
  function FilterNav(items: seq<NavItem>, role: Option<string>): (r: seq<NavItem>)
    ensures |r| <= |items|
    ensures forall it :: it in r <==> it in items && role.Some? && role.value in it.roles
    ensures role.None? ==> r == []
  {
    if items == [] then []
    else if role.Some? && role.value in items[0].roles then [items[0]] + FilterNav(items[1..], role)
    else FilterNav(items[1..], role)
  }

  /** The entries the user sees. */
  function VisibleNav(role: Option<string>): seq<NavItem> {
    FilterNav(NavItems, role)
  }

  /** Filtering keeps the entries' relative order: it distributes over
      concatenation. */
  lemma {:induction false} FilterNavAppend(a: seq<NavItem>, b: seq<NavItem>, role: Option<string>)
    ensures FilterNav(a + b, role) == FilterNav(a, role) + FilterNav(b, role)
  {
    if a == [] {
      assert a + b == b;
    } else {
      assert (a + b)[0] == a[0];
      assert (a + b)[1..] == a[1..] + b;
      FilterNavAppend(a[1..], b, role);
    }
  }

  /** Two entries listed for the same roles are shown together or not at all. */
  lemma {:induction false} FilterNavPair(a: NavItem, b: NavItem, role: Option<string>)
    requires a.roles == b.roles
    ensures FilterNav([a, b], role) == if role.Some? && role.value in a.roles then [a, b] else []
  {
    assert [a, b][1..] == [b];
    assert [b][1..] == [];
  }

  /** The operators' entries and then the approvers' entries, each pair
      shown when the role string is in its list. */
  lemma {:induction false} VisibleNavSplit(role: string)
    ensures VisibleNav(Some(role)) ==
      (if role in CreateItem.roles then [CreateItem, MineItem] else [])
      + (if role in ApprovalsItem.roles then [ApprovalsItem, AllItem] else [])
  {
    var ops := [CreateItem, MineItem];
    var apps := [ApprovalsItem, AllItem];
    assert NavItems == ops + apps;
    FilterNavAppend(ops, apps, Some(role));
    FilterNavPair(CreateItem, MineItem, Some(role));
    FilterNavPair(ApprovalsItem, AllItem, Some(role));
  }

  /** What each role string sees: operators (in either spelling) create and
      list their own, approvers (in either spelling) review and list all,
      any other role string and no user see nothing. */
  lemma VisibleNavByRole(role: string)
    ensures role == "OPERATOR" || role == "OPERADOR" ==> VisibleNav(Some(role)) == [CreateItem, MineItem]
    ensures role == "APPROVER" || role == "APROBADOR" ==> VisibleNav(Some(role)) == [ApprovalsItem, AllItem]
    ensures role != "OPERATOR" && role != "OPERADOR" && role != "APPROVER" && role != "APROBADOR" ==>
      VisibleNav(Some(role)) == []
    ensures VisibleNav(None) == []
  {
    VisibleNavSplit(role);
    assert role in CreateItem.roles <==> role == "OPERATOR" || role == "OPERADOR";
    assert role in ApprovalsItem.roles <==> role == "APPROVER" || role == "APROBADOR";
  }

  /** `location.pathname === item.path`. */
  predicate IsActive(pathname: string, item: NavItem) {
    pathname == item.path
  }

  /** Whatever the role and the location, at most one visible entry is
      highlighted (the two entries sharing '/transactions' are never shown
      together). */
  lemma AtMostOneActive(role: Option<string>, pathname: string, i: int, j: int)
    requires 0 <= i < |VisibleNav(role)| && 0 <= j < |VisibleNav(role)|
    requires IsActive(pathname, VisibleNav(role)[i]) && IsActive(pathname, VisibleNav(role)[j])
    ensures i == j
  {
    if role.Some? {
      VisibleNavByRole(role.value);
    }
  }

  /** The header's name line, `user?.name || user?.email`. */
  function DisplayName(user: Option<AuthContext.User>): (s: string)
    ensures user.None? ==> s == ""
    ensures user.Some? && user.value.name != "" ==> s == user.value.name
    ensures user.Some? && user.value.name == "" ==> s == user.value.email
  {
    if user.None? then "" else if user.value.name != "" then user.value.name else user.value.email
  }

  /** The avatar letter: the first character of the name, else of the
      email, upper-cased; nothing when both are empty or there is no user. */
  function AvatarInitial(user: Option<AuthContext.User>): (s: string)
    ensures |s| <= 1
    ensures s == "" <==> user.None? || (user.value.name == "" && user.value.email == "")
    ensures user.Some? && user.value.name != "" ==> s == [Text.UpperChar(user.value.name[0])]
    ensures user.Some? && user.value.name == "" && user.value.email != "" ==> s == [Text.UpperChar(user.value.email[0])]
  {
    if user.None? then ""
    else if user.value.name != "" then [Text.UpperChar(user.value.name[0])]
    else if user.value.email != "" then [Text.UpperChar(user.value.email[0])]
    else ""
  }

  /** A user built from a token always has a name, so the header shows it
      and the avatar letter is taken from it. */
  lemma SignedInUserShowsName(c: AuthContext.Claims)
    ensures DisplayName(Some(AuthContext.ToUser(c))) == AuthContext.ToUser(c).name
    ensures AvatarInitial(Some(AuthContext.ToUser(c))) == [Text.UpperChar(AuthContext.ToUser(c).name[0])]
  {
  }

  /** The small-screen menu's open flag. */
  class MobileMenu {
    var isOpen: bool

    constructor ()
      ensures !isOpen
    {
      isOpen := false;
    }

    /** The menu button flips the flag. */
    method Toggle()
      modifies this
      ensures isOpen == !old(isOpen)
    {
      isOpen := !isOpen;
    }

    /** A click on the overlay or on a menu entry closes the menu. */
    method Close()
      modifies this
      ensures !isOpen
    {
      isOpen := false;
    }
  }
}

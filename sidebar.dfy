/** The navigation sidebar: which menu items a role sees, and which item is
    highlighted for the current path. The menu itself is a parameter. */
module Sidebar {
  import opened Wrappers
  import opened Seqs
  import opened Strings

  /** One entry of the menu: its label, link target, icon name and the roles
      allowed to see it. */
  datatype MenuItem = MenuItem(title: string, href: string, icon: string, roles: seq<string>)

  /** The role used when the sidebar is given none. */
  const DefaultRole: string := "super_admin"

  /** The role the sidebar filters by. */
  function EffectiveRole(userRole: Option<string>): (r: string)
    ensures userRole.None? ==> r == DefaultRole
    ensures userRole.Some? ==> r == userRole.value
  {
    userRole.GetOr(DefaultRole)
  }

  function AllowedFor(role: string): MenuItem -> bool {
    (item: MenuItem) => role in item.roles
  }

  /** `filteredMenuItems`: the items whose roles include the user's role. */
  function FilteredMenuItems(menu: seq<MenuItem>, userRole: Option<string>): seq<MenuItem> {
    Filter(menu, AllowedFor(EffectiveRole(userRole)))
  }

  /** The visible items are exactly those that list the role, in menu order,
      and never more of them than the menu has. */
  lemma FilteredMenuItemsExact(menu: seq<MenuItem>, userRole: Option<string>)
    ensures forall item :: item in FilteredMenuItems(menu, userRole) <==>
      item in menu && EffectiveRole(userRole) in item.roles
    ensures IsSubsequence(FilteredMenuItems(menu, userRole), menu)
    ensures |FilteredMenuItems(menu, userRole)| <= |menu|
  {
    FilterIsSubsequence(menu, AllowedFor(EffectiveRole(userRole)));
  }

  /** Filtering the filtered menu again by the same role changes nothing. */
  lemma FilteredMenuItemsIdempotent(menu: seq<MenuItem>, userRole: Option<string>)
    ensures FilteredMenuItems(FilteredMenuItems(menu, userRole), userRole) == FilteredMenuItems(menu, userRole)
  {
    FilterIdempotent(menu, AllowedFor(EffectiveRole(userRole)));
  }

  /** Without a role the sidebar shows what a super admin sees. */
  lemma DefaultRoleIsSuperAdmin(menu: seq<MenuItem>)
    ensures FilteredMenuItems(menu, None) == FilteredMenuItems(menu, Some("super_admin"))
  {
  }

  /** Whether the link to `href` is highlighted: the path is the link itself
      or lies below it. */
  predicate IsActiveLink(pathname: string, href: string) {
    pathname == href || StartsWith(pathname, href + "/")
  }

  /** The highlight rule, character by character: the path equals the link, or
      continues it with '/' right after the link's last character. */
  lemma IsActiveLinkIff(pathname: string, href: string)
    ensures IsActiveLink(pathname, href) <==>
      pathname == href ||
      (|pathname| > |href| && pathname[..|href|] == href && pathname[|href|] == '/')
  {
    if |pathname| > |href| {
      assert pathname[..|href| + 1] == pathname[..|href|] + [pathname[|href|]];
      assert (href + "/")[..|href|] == href;
    }
  }

  /** The link to `href` is highlighted on `href` itself and on every path
      below it. */
  lemma ActiveOnSelfAndBelow(href: string, rest: string)
    ensures IsActiveLink(href, href)
    ensures IsActiveLink(href + "/" + rest, href)
  {
    assert (href + "/" + rest)[..|href + "/"|] == href + "/";
  }

  /** A sibling path that only shares the link's text as a prefix, such as
      `href + "x"`, is not highlighted. */
  lemma SiblingNotActive(href: string, c: char, rest: string)
    requires c != '/'
    ensures !IsActiveLink(href + [c] + rest, href)
  {
    IsActiveLinkIff(href + [c] + rest, href);
    assert (href + [c] + rest)[|href|] == c;
  }
}

/**
 * The sidebar's permission-filtered menu: a static tree of links and groups,
 * filtered through the access guard, plus the open/closed state of each group
 * (toggled by a click and seeded open when the current path lies under one of
 * the group's links).
 */
module Navigation {
  import opened Js
  import Auth

  /** A navigable entry: a top-level leaf or a child of a group. */
  datatype Link = Link(caption: string, path: string, permission: Option<string>)

  /** A menu node: a leaf, or a group with a key, its own (unused) permission and child links. */
  datatype MenuItem =
    | Leaf(link: Link)
    | Group(caption: string, key: string, permission: Option<string>, children: seq<Link>)

  const Dashboard := Leaf(Link("Dashboard", "/dashboard", None))
  const News := Leaf(Link("News", "/news", Some("news.browse")))
  const Articles := Group("Articles", "articles", Some("developer.browse"), [
    Link("All Articles", "/comming-soon", Some("developer.browse")),
    Link("Create Article", "/comming-soon", Some("developer.browse")),
    Link("Categories", "/comming-soon", Some("developer.browse")),
    Link("Tags", "/comming-soon", Some("developer.browse"))])
  const MediaLibrary := Leaf(Link("Media Library", "/comming-soon", Some("developer.browse")))
  const Comments := Leaf(Link("Comments", "/comming-soon", Some("developer.browse")))
  const Pages := Group("Pages", "pages", Some("developer.browse"), [
    Link("All Pages", "/comming-soon", Some("developer.browse")),
    Link("Create Page", "/comming-soon", Some("developer.browse"))])
  const WebsiteMenu := Leaf(Link("Website Menu", "/comming-soon", Some("developer.browse")))
  const Reports := Leaf(Link("Reports", "/comming-soon", Some("developer.browse")))
  const UsersLink := Link("Users", "/settings/users", Some("user.browse"))
  const RolesLink := Link("Roles & Permissions", "/settings/roles", Some("role.browse"))
  const SystemSettingsLink := Link("System Settings", "/comming-soon", Some("role.browse"))
  const ActivityLogsLink := Link("Activity Logs", "/comming-soon", Some("developer.browse"))
  const AdminSettings := Group("Admin Settings", "settings", None, [UsersLink, RolesLink, SystemSettingsLink, ActivityLogsLink])

  /** The items between Dashboard and Admin Settings, in display order. */
  const ContentItems: seq<MenuItem> := [News, Articles, MediaLibrary, Comments, Pages, WebsiteMenu, Reports]

  /** The items after Dashboard, in display order. */
  const GatedItems: seq<MenuItem> := ContentItems + [AdminSettings]

  /** The static menu definition, in display order: Dashboard, News, Articles, Media Library, Comments, Pages, Website Menu, Reports, Admin Settings. */
  const MenuItems: seq<MenuItem> := [Dashboard] + GatedItems

  // ---------------------------------------------------------------------------
  // Visibility

  /** `hasPermission(link.permission)`. */
  predicate Permitted(user: Option<Auth.User>, link: Link) {
    Auth.HasPermission(user, link.permission)
  }

  /** `children.filter(child => hasPermission(child.permission))`. */
  function VisibleChildren(user: Option<Auth.User>, children: seq<Link>): seq<Link> {
    Filter(children, (c: Link) => Permitted(user, c))
  }

  /** A leaf is shown when permitted; a group when some child is. The group's own permission is not read. */
  predicate Shown(user: Option<Auth.User>, item: MenuItem) {
    match item
    case Leaf(link) => Permitted(user, link)
    case Group(_, _, _, children) => |VisibleChildren(user, children)| > 0
  }

  /** The menu items that render, in menu order. */
  function VisibleItems(user: Option<Auth.User>, items: seq<MenuItem>): seq<MenuItem> {
    Filter(items, (i: MenuItem) => Shown(user, i))
  }

  /** `pathname.startsWith(path)`. */
  predicate StartsWith(pathname: string, path: string) {
    path <= pathname
  }

  /** `links.some(l => pathname.startsWith(l.path))`. */
  function AnyStartsWith(links: seq<Link>, pathname: string): (r: bool)
    ensures r <==> exists i :: 0 <= i < |links| && StartsWith(pathname, links[i].path)
  {
    if links == [] then false
    else StartsWith(pathname, links[0].path) || AnyStartsWith(links[1..], pathname)
  }

  /** `openMenus[key]` read as a boolean: a missing key is closed. */
  predicate IsOpen(openMenus: map<string, bool>, key: string) {
    key in openMenus && openMenus[key]
  }

  /** What one visible item renders as. */
  datatype Entry =
    | LinkEntry(link: Link)
    | GroupEntry(caption: string, key: string, active: bool, open: bool, submenu: seq<Link>)

  /** A leaf renders its link; a group its caption, the active mark, the chevron and, when open, its visible children. */
  function RenderItem(user: Option<Auth.User>, pathname: string, openMenus: map<string, bool>, item: MenuItem): Entry {
    match item
    case Leaf(link) => LinkEntry(link)
    case Group(caption, key, _, children) =>
      var visible := VisibleChildren(user, children);
      var open := IsOpen(openMenus, key);
      GroupEntry(caption, key, AnyStartsWith(visible, pathname), open, if open then visible else [])
  }

  /** The `<nav>` contents: one entry per visible item, in menu order. */
  function RenderMenu(user: Option<Auth.User>, pathname: string, openMenus: map<string, bool>, items: seq<MenuItem>): seq<Entry> {
    var visible := VisibleItems(user, items);
    seq(|visible|, i requires 0 <= i < |visible| => RenderItem(user, pathname, openMenus, visible[i]))
  }

  /** A leaf is shown exactly when its permission passes. */
  lemma LeafShownIff(user: Option<Auth.User>, link: Link)
    ensures Shown(user, Leaf(link)) <==> Auth.HasPermission(user, link.permission)
  {
  }

  /** A group is shown exactly when one of its children passes; its own permission plays no part. */
  lemma GroupShownIff(user: Option<Auth.User>, caption: string, key: string, permission: Option<string>, children: seq<Link>)
    ensures Shown(user, Group(caption, key, permission, children))
      <==> exists c :: c in children && Auth.HasPermission(user, c.permission)
    ensures forall other: Option<string> ::
      Shown(user, Group(caption, key, other, children)) == Shown(user, Group(caption, key, permission, children))
  {
    var visible := VisibleChildren(user, children);
    if exists c :: c in children && Auth.HasPermission(user, c.permission) {
      var c :| c in children && Auth.HasPermission(user, c.permission);
      assert c in visible;
    }
    if |visible| > 0 {
      assert visible[0] in visible;
    }
  }

  /** The shown items keep menu order; every item of the result is shown and every shown item is in it. */
  lemma VisibleKeepsOrder(user: Option<Auth.User>, items: seq<MenuItem>)
    ensures IsSubsequence(VisibleItems(user, items), items)
    ensures forall item :: item in VisibleItems(user, items) <==> item in items && Shown(user, item)
    ensures forall item :: item in items && item.Group? ==>
      IsSubsequence(VisibleChildren(user, item.children), item.children)
  {
  }

  /** A group is marked active exactly when a visible child's path prefixes the pathname, and lists its children only when open. */
  lemma GroupEntryIff(user: Option<Auth.User>, pathname: string, openMenus: map<string, bool>,
                      caption: string, key: string, permission: Option<string>, children: seq<Link>)
    ensures var e := RenderItem(user, pathname, openMenus, Group(caption, key, permission, children));
      && e.GroupEntry?
      && (e.active <==> exists c :: c in VisibleChildren(user, children) && StartsWith(pathname, c.path))
      && e.open == IsOpen(openMenus, key)
      && e.submenu == (if IsOpen(openMenus, key) then VisibleChildren(user, children) else [])
  {
    var visible := VisibleChildren(user, children);
    if AnyStartsWith(visible, pathname) {
      var i :| 0 <= i < |visible| && StartsWith(pathname, visible[i].path);
      assert visible[i] in visible;
    }
  }

  /** Every entry of the rendered menu renders a shown item, in menu order. */
  lemma RenderMenuFaithful(user: Option<Auth.User>, pathname: string, openMenus: map<string, bool>, items: seq<MenuItem>)
    ensures |RenderMenu(user, pathname, openMenus, items)| == |VisibleItems(user, items)|
    ensures forall i :: 0 <= i < |VisibleItems(user, items)| ==>
      RenderMenu(user, pathname, openMenus, items)[i] == RenderItem(user, pathname, openMenus, VisibleItems(user, items)[i])
  {
  }

  /** Dashboard has no permission, so it is always the first rendered item. */
  lemma DashboardAlwaysShown(user: Option<Auth.User>)
    ensures |VisibleItems(user, MenuItems)| > 0 && VisibleItems(user, MenuItems)[0] == MenuItems[0]
  {
    assert Shown(user, MenuItems[0]);
  }

  /** Every link of the item carries a real (truthy) permission key. */
  predicate Gated(item: MenuItem) {
    match item
    case Leaf(link) => Truthy(link.permission)
    case Group(_, _, _, children) => forall c :: c in children ==> Truthy(c.permission)
  }

  /** A gated item is hidden from whoever grants nothing. */
  lemma GatedHidden(user: Option<Auth.User>, item: MenuItem)
    requires Auth.PermissionList(user) == None || Auth.PermissionList(user) == Some([])
    requires Gated(item)
    ensures !Shown(user, item)
  {
    if item.Group? {
      FilterKeepsNone(item.children, (c: Link) => Permitted(user, c));
    }
  }


  /** Every item after Dashboard is gated. */
  lemma GatedItemsGated()
    ensures forall item :: item in GatedItems ==> Gated(item)
  {
    GatedGroups();
    GatedLeaves();
  }

  /** The five leaves between Dashboard and Admin Settings each name a real key. */
  lemma GatedLeaves()
    ensures Gated(News) && Gated(MediaLibrary) && Gated(Comments) && Gated(WebsiteMenu) && Gated(Reports)
  {
  }

  /** Each link of the three groups names a real key, including those under Admin Settings. */
  lemma GatedGroups()
    ensures Gated(Articles) && Gated(Pages) && Gated(AdminSettings)
  {
  }

  /** Each item after Dashboard is hidden from whoever grants nothing. */
  lemma GatedItemsHidden(user: Option<Auth.User>)
    requires Auth.PermissionList(user) == None || Auth.PermissionList(user) == Some([])
    ensures forall item :: item in GatedItems ==> !Shown(user, item)
  {
    GatedItemsGated();
    forall item | item in GatedItems
      ensures !Shown(user, item)
    {
      GatedHidden(user, item);
    }
  }

  /** Whoever grants nothing sees only Dashboard: every other link is gated by a real permission. */
  lemma NoPermissionsOnlyDashboard(user: Option<Auth.User>)
    requires Auth.PermissionList(user) == None || Auth.PermissionList(user) == Some([])
    ensures VisibleItems(user, MenuItems) == [MenuItems[0]]
  {
    var keep := (i: MenuItem) => Shown(user, i);
    GatedItemsHidden(user);
    FilterKeepsNone(GatedItems, keep);
    assert MenuItems[1..] == GatedItems;
    assert Shown(user, Dashboard);
  }

  /** Which settings links a user granted only `role.browse` (a role manager) passes. */
  lemma RoleManagerLinks(user: Option<Auth.User>)
    requires Auth.PermissionList(user) == Some(["role.browse"])
    ensures !Permitted(user, UsersLink) && Permitted(user, RolesLink)
    ensures Permitted(user, SystemSettingsLink) && !Permitted(user, ActivityLogsLink)
  {
    assert "user.browse" != "role.browse";
    assert "developer.browse" != "role.browse";
  }

  /** Of the settings group a role manager sees the two links gated by `role.browse`, in order. */
  lemma RoleManagerSettings(user: Option<Auth.User>)
    requires Auth.PermissionList(user) == Some(["role.browse"])
    ensures VisibleChildren(user, AdminSettings.children) == [RolesLink, SystemSettingsLink]
  {
    var keep := (c: Link) => Permitted(user, c);
    RoleManagerLinks(user);
    FilterCons(ActivityLogsLink, [], keep);
    FilterCons(SystemSettingsLink, [ActivityLogsLink], keep);
    FilterCons(RolesLink, [SystemSettingsLink, ActivityLogsLink], keep);
    FilterCons(UsersLink, [RolesLink, SystemSettingsLink, ActivityLogsLink], keep);
  }

  /** The two content groups are hidden from a role manager: none of their links passes. */
  lemma RoleManagerNoContentGroups(user: Option<Auth.User>)
    requires Auth.PermissionList(user) == Some(["role.browse"])
    ensures !Shown(user, Articles) && !Shown(user, Pages)
  {
    var keep := (c: Link) => Permitted(user, c);
    assert forall c :: c in Articles.children ==> !keep(c);
    assert forall c :: c in Pages.children ==> !keep(c);
    FilterKeepsNone(Articles.children, keep);
    FilterKeepsNone(Pages.children, keep);
  }


  /** The content leaves are hidden from a role manager. */
  lemma RoleManagerNoContentLeaves(user: Option<Auth.User>)
    requires Auth.PermissionList(user) == Some(["role.browse"])
    ensures !Shown(user, News) && !Shown(user, MediaLibrary) && !Shown(user, Comments)
    ensures !Shown(user, WebsiteMenu) && !Shown(user, Reports)
  {
    assert "news.browse" != "role.browse";
    assert "developer.browse" != "role.browse";
  }

  /** None of the content items is shown to a role manager. */
  lemma RoleManagerNoContent(user: Option<Auth.User>)
    requires Auth.PermissionList(user) == Some(["role.browse"])
    ensures Filter(ContentItems, (i: MenuItem) => Shown(user, i)) == []
  {
    RoleManagerNoContentGroups(user);
    RoleManagerNoContentLeaves(user);
    var keep := (i: MenuItem) => Shown(user, i);
    assert forall i :: i in ContentItems ==> !keep(i);
    FilterKeepsNone(ContentItems, keep);
  }

  /** Keeping the two ends of a sequence and nothing in between leaves just the ends. */
  lemma {:induction false} FilterKeepsEnds(first: MenuItem, middle: seq<MenuItem>, last: MenuItem, keep: MenuItem -> bool)
    requires keep(first) && keep(last) && Filter(middle, keep) == []
    ensures Filter([first] + (middle + [last]), keep) == [first, last]
  {
    FilterSnoc(middle, last, keep);
    FilterCons(first, middle + [last], keep);
  }

  /** A role manager sees Dashboard and Admin Settings only; the settings group is shown although its own permission is null. */
  lemma RoleManagerMenu(user: Option<Auth.User>)
    requires Auth.PermissionList(user) == Some(["role.browse"])
    ensures VisibleItems(user, MenuItems) == [Dashboard, AdminSettings]
  {
    var keep := (i: MenuItem) => Shown(user, i);
    RoleManagerSettings(user);
    RoleManagerNoContent(user);
    FilterKeepsEnds(Dashboard, ContentItems, AdminSettings, keep);
  }

  // ---------------------------------------------------------------------------
  // Open/closed state of the groups

  /** `setOpenMenus(prev => ({...prev, [key]: !prev[key]}))`. */
  function Toggled(openMenus: map<string, bool>, key: string): (r: map<string, bool>)
    ensures IsOpen(r, key) == !IsOpen(openMenus, key)
    ensures key in r
    ensures forall k :: k != key ==> (k in r <==> k in openMenus) && (k in r ==> r[k] == openMenus[k])
  {
    openMenus[key := !IsOpen(openMenus, key)]
  }

  /** Toggling the same group twice restores whether every group is open. */
  lemma ToggleTwice(openMenus: map<string, bool>, key: string)
    ensures forall k :: IsOpen(Toggled(Toggled(openMenus, key), key), k) == IsOpen(openMenus, k)
  {
  }

  /** The seeding effect opens a group with a truthy key when any child (visible or not) prefixes the path. */
  predicate Seeds(item: MenuItem, pathname: string) {
    item.Group? && item.key != "" && AnyStartsWith(item.children, pathname)
  }

  /** Some item of `items` seeds the group `key` open. */
  predicate SeedsKey(items: seq<MenuItem>, pathname: string, key: string) {
    exists i :: 0 <= i < |items| && Seeds(items[i], pathname) && items[i].key == key
  }

  /** The `newOpen` object the path effect builds with its `forEach` loop. */
  method SeedOpenMenus(items: seq<MenuItem>, pathname: string) returns (newOpen: map<string, bool>)
    ensures forall k :: k in newOpen ==> newOpen[k]
    ensures forall k :: k in newOpen <==> SeedsKey(items, pathname, k)
  {
    newOpen := map[];
    var i := 0;
    while i < |items|
      invariant 0 <= i <= |items|
      invariant forall k :: k in newOpen ==> newOpen[k]
      invariant forall k :: k in newOpen <==> SeedsKey(items[..i], pathname, k)
    {
      var item := items[i];
      assert items[..i + 1] == items[..i] + [item];
      if item.Group? {
        var hasActiveChild := AnyStartsWith(item.children, pathname);
        if hasActiveChild && item.key != "" {
          newOpen := newOpen[item.key := true];
        }
      }
      i := i + 1;
    }
    assert items[..i] == items;
  }

  /** The sidebar component's own state. */
  class Sidebar {
    var openMenus: map<string, bool>

    /** `useState({})`. */
    constructor ()
      ensures openMenus == map[]
    {
      openMenus := map[];
    }

    /** A click on a group header. */
    method ToggleMenu(key: string)
      modifies this
      ensures openMenus == Toggled(old(openMenus), key)
    {
      openMenus := openMenus[key := !IsOpen(openMenus, key)];
    }

    /** The effect run on every change of `location.pathname`: merge in the seeded groups. */
    method OnPathChange(pathname: string)
      modifies this
      ensures forall k :: SeedsKey(MenuItems, pathname, k) ==> IsOpen(openMenus, k)
      ensures forall k :: IsOpen(old(openMenus), k) ==> IsOpen(openMenus, k)
      ensures forall k :: !SeedsKey(MenuItems, pathname, k) ==>
        (k in openMenus <==> k in old(openMenus)) && (k in openMenus ==> openMenus[k] == old(openMenus)[k])
    {
      var newOpen := SeedOpenMenus(MenuItems, pathname);
      openMenus := openMenus + newOpen;
    }
  }
}

/** The dashboard sidebar's navigation entries and the role filter that picks
    the ones the signed-in user may see. */
module Sidebar {
  import opened Optional
  import opened Lists

  /** Who a navigation entry is for. */
  datatype Role = Sender | Traveler | All

  /** A navigation entry (the icon is left out; `caption` is the label text or the
      translation key it is looked up by). */
  datatype SidebarItem = SidebarItem(id: string, caption: string, path: string, role: Role)

  /** The signed-in user, as far as the filter reads it. */
  datatype User = User(permissions: Option<string>)

  /** The string literal each role is written as. */
  function RoleName(r: Role): string
  {
    match r
    case Sender => "sender"
    case Traveler => "traveler"
    case All => "all"
  }

  /** `user?.permissions`: missing when no one is signed in. */
  function Permissions(user: Option<User>): (p: Option<string>)
    ensures user.None? ==> p.None?
    ensures user.Some? ==> p == user.value.permissions
  {
    match user
    case None => None
    case Some(u) => u.permissions
  }

  /** The entries in the order the sidebar declares them. */
  function SidebarItems(): (items: seq<SidebarItem>)
    ensures |items| == 6
  {
    [ SidebarItem("packages", "myPackages", "/sender/dashboard/packages", Sender),
      SidebarItem("trips", "trips", "/traveler/dashboard/trips", Traveler),
      SidebarItem("profile", "profile", "/traveler/dashboard/profile", Traveler),
      SidebarItem("orders", "orders", "/sender/dashboard/orders", Sender),
      SidebarItem("orders", "orders", "/traveler/dashboard/orders", Traveler),
      SidebarItem("issues", "Issues", "/sender/dashboard/issues", All) ]
  }

  /** `item.role === 'all' || item.role === user?.permissions` */
  predicate Visible(item: SidebarItem, permissions: Option<string>)
    ensures item.role == All ==> Visible(item, permissions)
    ensures permissions == Some(RoleName(item.role)) ==> Visible(item, permissions)
    ensures permissions.None? ==> (Visible(item, permissions) <==> item.role == All)
    ensures item.role != All && permissions != Some(RoleName(item.role)) ==> !Visible(item, permissions)
  {
    item.role == All || (permissions.Some? && RoleName(item.role) == permissions.value)
  }

  /** The filter predicate for one user. */
  function VisibleTo(permissions: Option<string>): SidebarItem -> bool
  {
    item => Visible(item, permissions)
  }

  /** `sidebarItems.filter(...)`: the entries the user may see. Only shared
      entries and entries of the user's own role survive. */
  function FilteredItems(items: seq<SidebarItem>, permissions: Option<string>): (r: seq<SidebarItem>)
    ensures |r| <= |items|
    ensures forall k :: 0 <= k < |r| ==> Visible(r[k], permissions)
  {
    var r := Filter(items, VisibleTo(permissions));
    assert forall k :: 0 <= k < |r| ==> VisibleTo(permissions)(r[k]);
    r
  }

  /** The filter drops nothing that matches: every shared entry and every
      entry of the user's own role is kept, and nothing else appears. */
  lemma FilterComplete(items: seq<SidebarItem>, permissions: Option<string>)
    ensures var r := FilteredItems(items, permissions);
            && (forall i :: 0 <= i < |items| && items[i].role == All ==> items[i] in r)
            && (forall i :: 0 <= i < |items| && permissions.Some? && RoleName(items[i].role) == permissions.value
                            ==> items[i] in r)
            && (forall x :: x in r ==> x in items)
  {
    FilterMembers(items, VisibleTo(permissions));
  }

  /** The filter keeps the relative order of the entries: the k-th visible
      entry sits at the k-th of an increasing run of positions in `items`,
      and every visible position is in that run. */
  lemma FilterKeepsOrder(items: seq<SidebarItem>, permissions: Option<string>)
    ensures var r, idx := FilteredItems(items, permissions), KeptIndices(items, VisibleTo(permissions));
            && |idx| == |r|
            && (forall k :: 0 <= k < |r| ==> idx[k] < |items| && r[k] == items[idx[k]])
            && (forall k, l :: 0 <= k < l < |idx| ==> idx[k] < idx[l])
            && (forall i :: 0 <= i < |items| && Visible(items[i], permissions) ==> i in idx)
  {
    var idx := KeptIndices(items, VisibleTo(permissions));
    forall i | 0 <= i < |items| && Visible(items[i], permissions) ensures i in idx {
      KeptIndicesComplete(items, VisibleTo(permissions), i);
    }
  }

  /** Without a signed-in user only the shared entries remain, all of them. */
  lemma NoUserSeesSharedOnly(items: seq<SidebarItem>)
    ensures var r := FilteredItems(items, Permissions(None));
            && (forall k :: 0 <= k < |r| ==> r[k].role == All)
            && (forall i :: 0 <= i < |items| && items[i].role == All ==> items[i] in r)
  {
    FilterComplete(items, None);
  }

  /** A permission that names neither specific role (an unknown one, or "all")
      sees exactly what a visitor without a user sees. */
  lemma {:induction false} OtherPermissionSeesShared(items: seq<SidebarItem>, p: string)
    requires p != "sender" && p != "traveler"
    ensures FilteredItems(items, Some(p)) == FilteredItems(items, None)
  {
    forall i | 0 <= i < |items|
      ensures VisibleTo(Some(p))(items[i]) == VisibleTo(None)(items[i])
    {
      assert RoleName(items[i].role) == p ==> items[i].role == All;
    }
    FilterCongruent(items, VisibleTo(Some(p)), VisibleTo(None));
  }

  /** The paths of a list of entries. */
  function Paths(items: seq<SidebarItem>): (ps: seq<string>)
    ensures |ps| == |items|
    ensures forall k :: 0 <= k < |items| ==> ps[k] == items[k].path
  {
    if items == [] then [] else [items[0].path] + Paths(items[1..])
  }

  /** The filter over two entries, decided entry by entry. */
  lemma FilterPair(s: seq<SidebarItem>, keep: SidebarItem -> bool)
    requires |s| == 2
    ensures Filter(s, keep) == (if keep(s[0]) then [s[0]] else []) + (if keep(s[1]) then [s[1]] else [])
  {
    assert s == [s[0]] + [s[1]];
    FilterAppend([s[0]], [s[1]], keep);
    FilterSingle(s[0], keep);
    FilterSingle(s[1], keep);
  }

  /** The filter over six entries, taken two entries at a time. */
  lemma FilterSix(s: seq<SidebarItem>, keep: SidebarItem -> bool, a: seq<SidebarItem>, b: seq<SidebarItem>, c: seq<SidebarItem>)
    requires |s| == 6
    requires a == (if keep(s[0]) then [s[0]] else []) + (if keep(s[1]) then [s[1]] else [])
    requires b == (if keep(s[2]) then [s[2]] else []) + (if keep(s[3]) then [s[3]] else [])
    requires c == (if keep(s[4]) then [s[4]] else []) + (if keep(s[5]) then [s[5]] else [])
    ensures Filter(s, keep) == a + b + c
  {
    assert s == s[..2] + s[2..4] + s[4..];
    FilterAppend(s[..2] + s[2..4], s[4..], keep);
    FilterAppend(s[..2], s[2..4], keep);
    FilterPair(s[..2], keep);
    FilterPair(s[2..4], keep);
    FilterPair(s[4..], keep);
  }

  /** A sender sees its packages, its orders and the issues page. */
  lemma SenderView()
    ensures Paths(FilteredItems(SidebarItems(), Some("sender")))
            == ["/sender/dashboard/packages", "/sender/dashboard/orders", "/sender/dashboard/issues"]
  {
    var s := SidebarItems();
    FilterSix(s, VisibleTo(Some("sender")), [s[0]], [s[3]], [s[5]]);
  }

  /** A traveler sees its trips, its profile, its orders and the issues page. */
  lemma TravelerView()
    ensures Paths(FilteredItems(SidebarItems(), Some("traveler")))
            == ["/traveler/dashboard/trips", "/traveler/dashboard/profile",
                "/traveler/dashboard/orders", "/sender/dashboard/issues"]
  {
    var s := SidebarItems();
    FilterSix(s, VisibleTo(Some("traveler")), [s[1]], [s[2]], [s[4], s[5]]);
  }

  /** Without a user only the issues page is listed. */
  lemma VisitorView()
    ensures Paths(FilteredItems(SidebarItems(), None)) == ["/sender/dashboard/issues"]
  {
    var s := SidebarItems();
    FilterSix(s, VisibleTo(None), [], [], [s[5]]);
  }
}

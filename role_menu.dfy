/**
 * What the home and profile screens share: a menu filtered by the signed-in
 * user's role (no role counts as `member`), and the label naming that role.
 */
module RoleMenu {
  import opened Optional
  import opened Seqs
  import opened Auth

  /** The roles list of an entry every account may see. */
  const AllRoles: seq<Role> := [Member, AdminPusat, AdminCabang]

  datatype MenuItem = MenuItem(id: string, title: string, icon: string, screen: string, roles: seq<Role>)

  /** `userRole || 'member'`: the role the menus use. */
  function EffectiveRole(userRole: Option<Role>): (r: Role)
    ensures userRole.Some? ==> r == userRole.value
    ensures userRole.None? ==> r == Member
  {
    userRole.GetOr(Member)
  }

  /**
   * `filteredMenuItems`: the items, in their order, whose roles include the
   * effective role; each such item is shown as often as it occurs on the menu.
   */
  function VisibleItems(items: seq<MenuItem>, userRole: Option<Role>): (r: seq<MenuItem>)
    ensures IsSubsequence(r, items)
    ensures forall item {:trigger item in r} :: item in r <==> item in items && EffectiveRole(userRole) in item.roles
    ensures forall item {:trigger multiset(r)[item]} ::
      multiset(r)[item] == if EffectiveRole(userRole) in item.roles then multiset(items)[item] else 0
  {
    Filter(items, (item: MenuItem) => EffectiveRole(userRole) in item.roles)
  }

  /** The menu of a concatenation is the concatenation of the menus. */
  lemma {:induction false} VisibleAppend(a: seq<MenuItem>, b: seq<MenuItem>, userRole: Option<Role>)
    ensures VisibleItems(a + b, userRole) == VisibleItems(a, userRole) + VisibleItems(b, userRole)
  {
    FilterAppend(a, b, (item: MenuItem) => EffectiveRole(userRole) in item.roles);
  }

  /** The menu of a list split at `k` is the menu of the front followed by the menu of the back. */
  lemma {:induction false} VisibleSplit(items: seq<MenuItem>, k: nat, userRole: Option<Role>)
    requires k <= |items|
    ensures VisibleItems(items, userRole) == VisibleItems(items[..k], userRole) + VisibleItems(items[k..], userRole)
  {
    assert items == items[..k] + items[k..];
    VisibleAppend(items[..k], items[k..], userRole);
  }

  /** Items that all admit the role are all shown. */
  lemma {:induction false} VisibleAll(items: seq<MenuItem>, userRole: Option<Role>)
    requires forall i :: 0 <= i < |items| ==> EffectiveRole(userRole) in items[i].roles
    ensures VisibleItems(items, userRole) == items
  {
    FilterKeepsAll(items, (item: MenuItem) => EffectiveRole(userRole) in item.roles);
  }

  /** Items that all exclude the role are all hidden. */
  lemma {:induction false} VisibleNone(items: seq<MenuItem>, userRole: Option<Role>)
    requires forall i :: 0 <= i < |items| ==> EffectiveRole(userRole) !in items[i].roles
    ensures VisibleItems(items, userRole) == []
  {
    FilterKeepsNone(items, (item: MenuItem) => EffectiveRole(userRole) in item.roles);
  }

  /** Nobody signed in sees the same menu as a member. */
  lemma {:induction false} NoRoleSeesMemberMenu(items: seq<MenuItem>)
    ensures VisibleItems(items, None) == VisibleItems(items, Some(Member))
  {
    FilterSameTest(items, (item: MenuItem) => EffectiveRole(None) in item.roles,
                   (item: MenuItem) => EffectiveRole(Some(Member)) in item.roles);
  }

  /** How a missing branch renders inside a template literal. */
  function BranchText(branch: Option<string>): (text: string)
    ensures branch.Some? ==> text == branch.value
    ensures branch.None? ==> text == "undefined"
  {
    match branch
    case Some(b) => b
    case None => "undefined"
  }

  /**
   * The role line under the user's name: 'Admin Pusat', 'Admin Cabang ' followed
   * by the branch, or 'Member' for a member and for nobody signed in.
   */
  function RoleLabel(currentUser: Option<User>): (text: string)
    ensures RoleOf(currentUser) == Some(AdminPusat) ==> text == "Admin Pusat"
    ensures RoleOf(currentUser) == Some(AdminCabang) ==>
      text == "Admin Cabang " + BranchText(currentUser.value.branch)
    ensures RoleOf(currentUser) !in {Some(AdminPusat), Some(AdminCabang)} ==> text == "Member"
  {
    var userRole := RoleOf(currentUser);
    if userRole == Some(AdminPusat) then "Admin Pusat"
    else if userRole == Some(AdminCabang) then "Admin Cabang " + BranchText(currentUser.value.branch)
    else "Member"
  }

  /** The label tells the three roles apart, whatever the branch. */
  lemma {:induction false} RoleLabelsDistinct(u: User, v: User)
    requires u.role != v.role
    ensures RoleLabel(Some(u)) != RoleLabel(Some(v))
  {
    var lu, lv := RoleLabel(Some(u)), RoleLabel(Some(v));
    if u.role == AdminCabang { assert lu[6] == 'C'; }
    if v.role == AdminCabang { assert lv[6] == 'C'; }
    if u.role == AdminPusat { assert lu[6] == 'P'; }
    if v.role == AdminPusat { assert lv[6] == 'P'; }
    if u.role == Member { assert lu[0] == 'M'; }
    if v.role == Member { assert lv[0] == 'M'; }
  }

  /** The three table accounts are labelled 'Member', 'Admin Pusat' and 'Admin Cabang Surabaya'. */
  lemma {:induction false} DummyUserLabels()
    ensures RoleLabel(Some(DummyUsers()["member@nu.or.id"])) == "Member"
    ensures RoleLabel(Some(DummyUsers()["admin.pusat@nu.or.id"])) == "Admin Pusat"
    ensures RoleLabel(Some(DummyUsers()["admin.cabang@nu.or.id"])) == "Admin Cabang Surabaya"
    ensures RoleLabel(None) == "Member"
  {
  }
}

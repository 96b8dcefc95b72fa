/**
 * The profile screen's menu: a member sees the six personal entries; the admin
 * roles see only personal data, settings and help.
 */
module ProfileScreen {
  import opened Optional
  import opened Auth
  import opened RoleMenu

  const MemberOnly: seq<Role> := [Member]

  /** The profile menu, in display order. */
  function MenuItems(): seq<MenuItem> {
    [ MenuItem("personal", "Data Pribadi", "👤", "PersonalData", AllRoles),
      MenuItem("donations", "Riwayat Donasi", "🤲", "DonationHistory", MemberOnly),
      MenuItem("transactions", "Riwayat Transaksi", "💳", "TransactionHistory", MemberOnly),
      MenuItem("loans", "Pinjaman Saya", "💰", "MyLoans", MemberOnly),
      MenuItem("settings", "Pengaturan", "⚙️", "Settings", AllRoles),
      MenuItem("help", "Bantuan", "❓", "Help", AllRoles) ]
  }

  /** Who may see each entry: the first and last two are for everyone, the middle three for members. */
  lemma {:induction false} MenuRoles(admin: Role)
    requires admin != Member
    ensures |MenuItems()| == 6
    ensures forall i :: 0 <= i < 6 ==> Member in MenuItems()[i].roles
    ensures admin in MenuItems()[0].roles && admin in MenuItems()[4].roles && admin in MenuItems()[5].roles
    ensures admin !in MenuItems()[1].roles && admin !in MenuItems()[2].roles && admin !in MenuItems()[3].roles
  {
  }

  /**
   * A member (and nobody signed in) sees all six items; either admin role sees
   * only personal data, settings and help, in that order.
   */
  lemma {:induction false} ProfileMenuByRole()
    ensures VisibleItems(MenuItems(), Some(Member)) == MenuItems()
    ensures VisibleItems(MenuItems(), None) == MenuItems()
    ensures VisibleItems(MenuItems(), Some(AdminPusat)) == [MenuItems()[0], MenuItems()[4], MenuItems()[5]]
    ensures VisibleItems(MenuItems(), Some(AdminCabang)) == [MenuItems()[0], MenuItems()[4], MenuItems()[5]]
  {
    var items := MenuItems();
    MenuRoles(AdminPusat);
    MenuRoles(AdminCabang);
    MemberSeesAll(items);
    NoRoleSeesMemberMenu(items);
    AdminSeesOuterItems(items, AdminPusat);
    AdminSeesOuterItems(items, AdminCabang);
  }

  /** A menu whose every entry admits members is shown whole to a member. */
  lemma {:induction false} MemberSeesAll(items: seq<MenuItem>)
    requires forall i :: 0 <= i < |items| ==> Member in items[i].roles
    ensures VisibleItems(items, Some(Member)) == items
  {
    VisibleAll(items, Some(Member));
  }

  /** A six-entry menu whose middle three entries exclude a role shows that role the other three. */
  lemma {:induction false} AdminSeesOuterItems(items: seq<MenuItem>, admin: Role)
    requires |items| == 6
    requires admin in items[0].roles && admin in items[4].roles && admin in items[5].roles
    requires admin !in items[1].roles && admin !in items[2].roles && admin !in items[3].roles
    ensures VisibleItems(items, Some(admin)) == [items[0], items[4], items[5]]
  {
    VisibleSplit(items, 1, Some(admin));
    VisibleAll(items[..1], Some(admin));
    OuterTail(items[1..], admin);
  }

  /** The last five entries of such a menu show that role only their last two. */
  lemma {:induction false} OuterTail(items: seq<MenuItem>, admin: Role)
    requires |items| == 5
    requires admin !in items[0].roles && admin !in items[1].roles && admin !in items[2].roles
    requires admin in items[3].roles && admin in items[4].roles
    ensures VisibleItems(items, Some(admin)) == items[3..]
  {
    VisibleSplit(items, 3, Some(admin));
    VisibleNone(items[..3], Some(admin));
    VisibleAll(items[3..], Some(admin));
  }
}

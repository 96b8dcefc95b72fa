/**
 * The home screen's feature menu: every role sees the four member features;
 * the two admin roles also see member data and announcements.
 */
module HomeScreen {
  import opened Optional
  import opened Auth
  import opened RoleMenu

  const AdminRoles: seq<Role> := [AdminPusat, AdminCabang]

  /** The home menu, in display order. */
  function MenuItems(): seq<MenuItem> {
    [ MenuItem("donation", "Donasi", "🤲", "Donation", AllRoles),
      MenuItem("umkm", "UMKM", "🏪", "UMKMStore", AllRoles),
      MenuItem("cooperative", "Koperasi", "💰", "Cooperative", AllRoles),
      MenuItem("blog", "Blog", "📰", "Blog", AllRoles),
      MenuItem("members", "Data Anggota", "👥", "Members", AdminRoles),
      MenuItem("announcements", "Pengumuman", "📢", "Announcements", AdminRoles) ]
  }

  /** The ids of a menu, in order. */
  function Ids(items: seq<MenuItem>): (ids: seq<string>)
    ensures |ids| == |items|
    ensures forall i :: 0 <= i < |items| ==> ids[i] == items[i].id
  {
    if items == [] then [] else [items[0].id] + Ids(items[1..])
  }

  /** Who may see each entry: the first four are for everyone, the last two for the admins. */
  lemma {:induction false} MenuRoles()
    ensures |MenuItems()| == 6
    ensures forall i :: 0 <= i < 6 ==> AdminPusat in MenuItems()[i].roles && AdminCabang in MenuItems()[i].roles
    ensures forall i :: 0 <= i < 4 ==> Member in MenuItems()[i].roles
    ensures Member !in MenuItems()[4].roles && Member !in MenuItems()[5].roles
  {
  }

  /** The ids of the four entries everybody sees. */
  lemma MemberIds()
    ensures Ids(MenuItems()[..4]) == ["donation", "umkm", "cooperative", "blog"]
  {
  }

  /** A member, and nobody signed in, sees donation, umkm, cooperative and blog. */
  lemma {:induction false} HomeMenuForMember()
    ensures Ids(VisibleItems(MenuItems(), Some(Member))) == ["donation", "umkm", "cooperative", "blog"]
    ensures Ids(VisibleItems(MenuItems(), None)) == ["donation", "umkm", "cooperative", "blog"]
  {
    MenuRoles();
    MemberSeesFirstFour(MenuItems());
    NoRoleSeesMemberMenu(MenuItems());
    MemberIds();
  }

  /** Either admin role sees all six entries. */
  lemma {:induction false} HomeMenuForAdmins()
    ensures VisibleItems(MenuItems(), Some(AdminPusat)) == MenuItems()
    ensures VisibleItems(MenuItems(), Some(AdminCabang)) == MenuItems()
  {
    MenuRoles();
    VisibleAll(MenuItems(), Some(AdminPusat));
    VisibleAll(MenuItems(), Some(AdminCabang));
  }

  /** A six-entry menu whose last two entries exclude members shows a member the first four. */
  lemma {:induction false} MemberSeesFirstFour(items: seq<MenuItem>)
    requires |items| == 6
    requires forall i :: 0 <= i < 4 ==> Member in items[i].roles
    requires Member !in items[4].roles && Member !in items[5].roles
    ensures VisibleItems(items, Some(Member)) == items[..4]
  {
    VisibleSplit(items, 4, Some(Member));
    VisibleAll(items[..4], Some(Member));
    VisibleNone(items[4..], Some(Member));
  }
}

/** The admin panel's side menu, app/components/AdminSidebar.tsx: who sees the
    menu at all, which entries each role sees, which entry is highlighted for
    the current path, and the header text. */
module AdminSidebar {
  import opened Common
  import opened Seqs

  datatype Access = All | AdminOnly | SellerOnly

  datatype MenuItem = MenuItem(title: string, href: string, access: Access)

  /** The menu in declaration order. */
  const Menu: seq<MenuItem> := [
    MenuItem("Панель управления", "/admin", All),
    MenuItem("Товары", "/admin/products", All),
    MenuItem("Добавить товар", "/admin/products/create", All),
    MenuItem("Мой профиль", "/admin/seller", SellerOnly),
    MenuItem("Пользователи", "/admin/users", AdminOnly),
    MenuItem("Продавцы", "/admin/sellers", AdminOnly),
    MenuItem("Города", "/admin/cities", AdminOnly),
    MenuItem("Виды рыб", "/admin/fish", AdminOnly),
    MenuItem("Аудит", "/admin/audit", AdminOnly)
  ]

  /** `String.prototype.startsWith`. */
  predicate StartsWith(s: string, prefix: string) {
    |prefix| <= |s| && s[..|prefix|] == prefix
  }

  /** `isActive(path)`: the current path is the entry's path or lies below it. */
  predicate IsActive(pathname: string, path: string) {
    pathname == path || StartsWith(pathname, path + "/")
  }

  /** An entry is highlighted exactly on its own path and on the paths below
      it, where the next character after the entry's path is a slash. */
  lemma IsActiveMeaning(pathname: string, path: string)
    ensures IsActive(pathname, path) <==>
      (pathname == path
       || (|pathname| > |path| && pathname[..|path|] == path && pathname[|path|] == '/'))
  {
    if |pathname| > |path| && pathname[..|path|] == path && pathname[|path|] == '/' {
      assert pathname[..|path| + 1] == path + "/";
    }
    if StartsWith(pathname, path + "/") {
      assert pathname[..|path|] == (path + "/")[..|path|];
      assert pathname[|path|] == (path + "/")[|path|];
    }
  }

  /** A path that merely extends the entry's path without a slash does not
      highlight it. */
  lemma BarePrefixInactive()
    ensures !IsActive("/admin/productsX", "/admin/products")
  {
    IsActiveMeaning("/admin/productsX", "/admin/products");
    assert "/admin/productsX"[15] == 'X';
  }

  /** The dashboard entry is highlighted on every page of the panel. */
  lemma DashboardAlwaysActive(pathname: string)
    requires StartsWith(pathname, "/admin/")
    ensures IsActive(pathname, "/admin")
  {
  }

  predicate Shown(item: MenuItem, isAdmin: bool, isSeller: bool) {
    item.access == All || (item.access == AdminOnly && isAdmin) || (item.access == SellerOnly && isSeller)
  }

  /** The entries rendered for the session's role, in menu order; `None` when
      the sidebar renders nothing at all. */
  function VisibleMenu(role: Option<Role>): (r: Option<seq<MenuItem>>)
    ensures r.None? <==> !(role == Some(Role.ADMIN) || role == Some(Role.SELLER))
    ensures r.Some? ==> Subsequence(r.value, Menu)
    ensures r.Some? ==> forall i :: 0 <= i < |Menu| ==>
      (Menu[i] in r.value <==> Shown(Menu[i], role == Some(Role.ADMIN), role == Some(Role.SELLER)))
  {
    var isAdmin := role == Some(Role.ADMIN);
    var isSeller := role == Some(Role.SELLER);
    if !isAdmin && !isSeller then None
    else
      FilterIsSubsequence(Menu, (item: MenuItem) => Shown(item, isAdmin, isSeller));
      Some(Filter(Menu, (item: MenuItem) => Shown(item, isAdmin, isSeller)))
  }

  /** An admin sees every entry but the seller's profile: eight entries. */
  lemma AdminMenu()
    ensures VisibleMenu(Some(Role.ADMIN)) == Some(Menu[..3] + Menu[4..])
    ensures |Menu[..3] + Menu[4..]| == 8
  {
    FilterDropsOne(Menu, 3, (item: MenuItem) => Shown(item, true, false));
  }

  /** A seller sees the three shared entries and their profile: four entries. */
  lemma SellerMenu()
    ensures VisibleMenu(Some(Role.SELLER)) == Some(Menu[..4])
    ensures |Menu[..4]| == 4
  {
    FilterPrefix(Menu, 4, (item: MenuItem) => Shown(item, false, true));
  }

  /** The header over the menu. */
  function HeaderText(role: Option<Role>): (r: string)
    ensures r == "Панель продавца" <==> role == Some(Role.SELLER)
    ensures r != "Панель продавца" ==> r == "Администрирование"
  {
    var isAdmin := role == Some(Role.ADMIN);
    var isSeller := role == Some(Role.SELLER);
    if isSeller && !isAdmin then "Панель продавца" else "Администрирование"
  }
}

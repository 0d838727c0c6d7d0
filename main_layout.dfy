/** The page frame: the side menu, which entry is highlighted, where each entry leads, and logout. */
module MainLayout {
  import opened Js
  import opened AuthContext

  /** A menu entry (its `label` is `caption` here); the dashboard entry has no path of its own. */
  datatype MenuItem = MenuItem(key: string, caption: string, path: Option<string>)

  const MenuItems: seq<MenuItem> := [
    MenuItem("dashboard", "Dashboard", None),
    MenuItem("productividad", "Productividad", Some("/productividad")),
    MenuItem("calculadora", "Calculadora CGT", Some("/calculadora-cgt")),
    MenuItem("avances", "Plantilla Avances", Some("/plantilla-avances")),
    MenuItem("manual", "Manual de Usuario", Some("/manual-usuario")),
    MenuItem("metodologias", "Metodologías", Some("/metodologias")),
    MenuItem("diccionario", "Diccionario de Métricas", Some("/diccionario-metricas"))
  ]

  /** `menuItems.find(m => m.path === path)`, as an index. */
  function FindByPath(items: seq<MenuItem>, path: string): (r: Option<nat>)
    ensures r.Some? ==>
      && r.value < |items| && items[r.value].path == Some(path)
      && forall j :: 0 <= j < r.value ==> items[j].path != Some(path)
    ensures r.None? ==> forall j :: 0 <= j < |items| ==> items[j].path != Some(path)
  {
    if items == [] then None
    else if items[0].path == Some(path) then Some(0)
    else
      var t := FindByPath(items[1..], path);
      if t.Some? then Some(t.value + 1) else None
  }

  /**
   * `computedActive`: the `activeKey` prop when it is a non-empty string; otherwise
   * "dashboard" for any dashboard path, or the key of the entry with that path, or null.
   * An empty pathname counts as "/".
   */
  function ComputedActive(activeKey: Option<string>, pathname: string): Option<string> {
    if activeKey.Some? && activeKey.value != "" then activeKey
    else
      var currentPath := if pathname == "" then "/" else pathname;
      if StartsWith(currentPath, "/dashboard-") then Some("dashboard")
      else
        var found := FindByPath(MenuItems, currentPath);
        if found.Some? then Some(MenuItems[found.value].key) else None
  }

  /** A given key is used unchanged; without one, the key follows the path. */
  lemma ComputedActiveCases(activeKey: Option<string>, pathname: string)
    ensures activeKey.Some? && activeKey.value != "" ==> ComputedActive(activeKey, pathname) == activeKey
    ensures (activeKey.None? || activeKey == Some("")) && StartsWith(pathname, "/dashboard-") ==>
      ComputedActive(activeKey, pathname) == Some("dashboard")
    ensures (activeKey.None? || activeKey == Some("")) && pathname != "" && !StartsWith(pathname, "/dashboard-") ==>
      (ComputedActive(activeKey, pathname).Some? <==> exists j :: 0 <= j < |MenuItems| && MenuItems[j].path == Some(pathname))
    ensures (activeKey.None? || activeKey == Some("")) && pathname != "" && !StartsWith(pathname, "/dashboard-") ==>
      forall j :: 0 <= j < |MenuItems| && MenuItems[j].path == Some(pathname) ==>
        ComputedActive(activeKey, pathname) == Some(MenuItems[j].key)
  {
    if (activeKey.None? || activeKey == Some("")) && pathname != "" && !StartsWith(pathname, "/dashboard-") {
      forall j | 0 <= j < |MenuItems| && MenuItems[j].path == Some(pathname)
        ensures ComputedActive(activeKey, pathname) == Some(MenuItems[j].key)
      {
        MenuPathsDistinct(j);
      }
    }
  }

  /** No two entries share a path, so the entry found for a path is the only one with it. */
  lemma MenuPathsDistinct(j: nat)
    requires j < |MenuItems| && MenuItems[j].path.Some?
    ensures FindByPath(MenuItems, MenuItems[j].path.value) == Some(j)
  {
    var p := MenuItems[j].path.value;
    var r := FindByPath(MenuItems, p);
    if r.Some? && r.value != j {
      assert r.value < j;
      PathPrefixes(r.value, j);
      assert false;
    }
  }

  /** Paths of different entries differ in their second or third character. */
  lemma PathPrefixes(a: nat, b: nat)
    requires a < b < |MenuItems| && MenuItems[a].path.Some? && MenuItems[b].path.Some?
    ensures |MenuItems[a].path.value| > 2 && |MenuItems[b].path.value| > 2
    ensures MenuItems[a].path.value[1] != MenuItems[b].path.value[1]
         || MenuItems[a].path.value[2] != MenuItems[b].path.value[2]
  {
    assert a == 1 || a == 2 || a == 3 || a == 4 || a == 5;
    assert b == 2 || b == 3 || b == 4 || b == 5 || b == 6;
  }

  /** No entry's path is a dashboard path. */
  lemma NoMenuPathIsDashboard(j: nat)
    requires j < |MenuItems| && MenuItems[j].path.Some?
    ensures MenuItems[j].path.value != "" && !StartsWith(MenuItems[j].path.value, "/dashboard-")
  {
    assert j == 1 || j == 2 || j == 3 || j == 4 || j == 5 || j == 6;
    var p := MenuItems[j].path.value;
    assert p[1] != 'd' || p[2] != 'a';
    assert "/dashboard-"[1] == 'd' && "/dashboard-"[2] == 'a';
  }

  /** The menu filter: "productividad" only for a lider. */
  function VisibleItems(user: Option<AppUser>): seq<MenuItem> {
    Visible(MenuItems, user)
  }

  /** `items.filter(...)`: keeps every entry but "productividad" for a user who is not a lider. */
  function Visible(items: seq<MenuItem>, user: Option<AppUser>): (r: seq<MenuItem>)
    ensures forall m :: m in r <==> m in items && (m.key != "productividad" || IsLider(user))
    ensures |r| <= |items|
  {
    if items == [] then []
    else if items[0].key == "productividad" && !IsLider(user) then Visible(items[1..], user)
    else [items[0]] + Visible(items[1..], user)
  }

  lemma MenuFilter(user: Option<AppUser>)
    ensures forall m :: m in MenuItems ==> (m in VisibleItems(user) <==> m.key != "productividad" || IsLider(user))
  {
  }

  /** Where a click on an entry navigates, if anywhere. */
  function Navigate(item: MenuItem, user: Option<AppUser>): Option<string> {
    if item.key == "dashboard" then
      if user.Some? && user.value.rol == Str("lider") then Some("/dashboard-lider")
      else if user.Some? && user.value.rol == Str("modelista") then Some("/dashboard-modelista")
      else Some("/dashboard-kpis")
    else item.path
  }

  /**
   * The dashboard entry leads by role; every other entry to its own path; and the page
   * reached that way highlights the entry that was clicked.
   */
  lemma NavigationByRole(user: Option<AppUser>)
    ensures Navigate(MenuItems[0], user) ==
      if IsLider(user) then Some("/dashboard-lider")
      else if IsModelista(user) then Some("/dashboard-modelista")
      else Some("/dashboard-kpis")
    ensures forall j :: 1 <= j < |MenuItems| ==> Navigate(MenuItems[j], user) == MenuItems[j].path
    ensures forall j :: 0 <= j < |MenuItems| ==>
      Navigate(MenuItems[j], user).Some? && ComputedActive(None, Navigate(MenuItems[j], user).value) == Some(MenuItems[j].key)
  {
    forall j | 0 <= j < |MenuItems|
      ensures Navigate(MenuItems[j], user).Some?
      ensures ComputedActive(None, Navigate(MenuItems[j], user).value) == Some(MenuItems[j].key)
    {
      if j == 0 {
        DashboardHighlighted(user);
      } else {
        EntryHighlighted(j, user);
      }
    }
  }

  lemma DashboardHighlighted(user: Option<AppUser>)
    ensures Navigate(MenuItems[0], user).Some?
    ensures ComputedActive(None, Navigate(MenuItems[0], user).value) == Some("dashboard")
  {
    var p := Navigate(MenuItems[0], user).value;
    assert p == "/dashboard-lider" || p == "/dashboard-modelista" || p == "/dashboard-kpis";
    assert p[..|"/dashboard-"|] == "/dashboard-";
  }

  lemma EntryHighlighted(j: nat, user: Option<AppUser>)
    requires 1 <= j < |MenuItems|
    ensures Navigate(MenuItems[j], user) == MenuItems[j].path && MenuItems[j].path.Some?
    ensures ComputedActive(None, MenuItems[j].path.value) == Some(MenuItems[j].key)
  {
    assert MenuItems[j].key != "dashboard" && MenuItems[j].path.Some?;
    NoMenuPathIsDashboard(j);
    MenuPathsDistinct(j);
  }

  /** What the logout button does: whether it calls `onLogout`, and whether it goes to "/". */
  datatype LogoutEffect = LogoutEffect(calledBack: bool, redirected: bool)

  function Logout(signOut: Outcome<()>, hasCallback: bool): LogoutEffect {
    if signOut.Return? then LogoutEffect(hasCallback, true) else LogoutEffect(hasCallback, false)
  }

  /** The callback runs whether signing out succeeded or failed; only success leaves for "/". */
  lemma LogoutCallsBack(signOut: Outcome<()>, hasCallback: bool)
    ensures Logout(signOut, hasCallback).calledBack == hasCallback
    ensures Logout(signOut, hasCallback).redirected <==> signOut.Return?
  {
  }
}

/** The navigation sidebar (components/sidebar.tsx): which link is highlighted for a path. */
module Sidebar {
  import opened Text

  /** The hrefs of the main menu, in order: Inicio, Punto de Venta, Inventario, Reportes, Clientes. */
  const MenuHrefs: seq<string> := ["/", "/pos", "/inventory", "/reports", "/customers"]

  /** The hrefs of the bottom items: Configuración, Cerrar Sesión. */
  const BottomHrefs: seq<string> := ["/settings", "#"]

  /** A menu item is active on its own path and, except for "/", on any path it is a raw prefix of. */
  predicate MenuItemActive(pathname: string, href: string): (active: bool)
    ensures active ==> StartsWith(pathname, href)
    ensures href == "/" ==> (active <==> pathname == "/")
    ensures href != "/" ==> (active <==> StartsWith(pathname, href))
  {
    pathname == href || (href != "/" && StartsWith(pathname, href))
  }

  /** A bottom item is active only on its own path. */
  predicate BottomItemActive(pathname: string, href: string): (active: bool)
    ensures active <==> StartsWith(pathname, href) && |pathname| == |href|
  {
    pathname == href
  }

  /** Inicio ("/") is highlighted exactly on the root path. */
  lemma HomeActiveOnlyAtRoot(pathname: string)
    ensures MenuItemActive(pathname, MenuHrefs[0]) <==> pathname == "/"
  {
  }

  /** The prefix test ignores path segments: "/pos" is highlighted for "/posx" as for "/pos/1". */
  lemma PrefixIgnoresSegments()
    ensures MenuItemActive("/posx", "/pos") && MenuItemActive("/pos/1", "/pos")
    ensures !BottomItemActive("/settings/x", "/settings")
  {
    assert "/posx"[..4] == "/pos";
    assert "/pos/1"[..4] == "/pos";
  }

  /** No href of the main menu, other than "/", is a prefix of another. */
  lemma MenuHrefsPrefixFree(i: nat, j: nat)
    requires i < |MenuHrefs| && j < |MenuHrefs| && i != j && i != 0 && j != 0
    ensures !StartsWith(MenuHrefs[j], MenuHrefs[i])
  {
    var a, b := MenuHrefs[i], MenuHrefs[j];
    if |a| <= |b| {
      assert b[..|a|] != a by {
        assert b[1] != a[1] || b[2] != a[2];
      }
    }
  }

  /** For any path, at most one item of the main menu is highlighted. */
  lemma AtMostOneMenuItemActive(pathname: string, i: nat, j: nat)
    requires i < j < |MenuHrefs|
    ensures !(MenuItemActive(pathname, MenuHrefs[i]) && MenuItemActive(pathname, MenuHrefs[j]))
  {
    if i != 0 {
      var a, b := MenuHrefs[i], MenuHrefs[j];
      PrefixesNest(pathname, a, b);
      PrefixesNest(pathname, b, a);
      MenuHrefsPrefixFree(i, j);
      MenuHrefsPrefixFree(j, i);
    }
  }
}

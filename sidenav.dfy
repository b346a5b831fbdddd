/** The side navigation of src/sidenavbar/SideNav.jsx: the tab chosen from
    the first path segment, the per-tab action lists, and where an action
    click navigates. */
module SideNav {
  import opened Wrappers
  import Text

  /** An action button: its key, its caption and an optional `to` route. */
  datatype Action = Action(key: string, caption: string, to: Option<string>)

  datatype Tab = Tab(caption: string, actions: seq<Action>)

  /** TAB_CONFIG, looked up by key. */
  function TabConfig(key: string): Option<Tab> {
    if key == "home" then Some(Tab("Home", []))
    else if key == "catalog" then Some(Tab("Catalog", [
      Action("cart", "Cart", Some("/cart")),
      Action("filter", "Filter", None),
      Action("sort", "Sort", None),
      Action("wish", "Wish", Some("/wishlist"))]))
    else if key == "inventory" then Some(Tab("Inventory", [
      Action("add", "Add", None),
      Action("stock", "Stock", None),
      Action("import", "Import", None),
      Action("export", "Export", None)]))
    else if key == "dashboard" then Some(Tab("Dashboard", [
      Action("view", "view", None),
      Action("report", "Report", None),
      Action("setting", "Setting", None)]))
    else None
  }

  /** `pathname.split("/")[1] || "home"`, with `pathname` defaulting to "/"
      when empty. A path without a second piece reads `undefined`, which
      also falls back to "home". */
  function FirstSegment(pathname: string): (seg: string)
    ensures seg != "" && '/' !in seg
  {
    var path := if pathname != "" then pathname else "/";
    var parts := Text.Split(path, '/');
    if |parts| > 1 && parts[1] != "" then parts[1] else "home"
  }

  /** The tab key: the first segment when it names a module tab, else "home". */
  function CurrentKey(pathname: string): (key: string)
    ensures key in {"home", "catalog", "inventory", "dashboard"}
    ensures TabConfig(key).Some?
    ensures key != "home" ==> key == FirstSegment(pathname)
    ensures FirstSegment(pathname) in {"catalog", "inventory", "dashboard"} ==> key == FirstSegment(pathname)
  {
    var seg := FirstSegment(pathname);
    if seg in ["catalog", "inventory", "dashboard"] then seg else "home"
  }

  /** The first segment is the text between the leading "/" and the next
      "/" (or the end), and "home" when that text is empty. */
  lemma FirstSegmentBetweenSlashes(seg: string, rest: string)
    requires '/' !in seg
    ensures FirstSegment("/" + seg) == (if seg != "" then seg else "home")
    ensures FirstSegment("/" + seg + "/" + rest) == (if seg != "" then seg else "home")
  {
    Text.SplitAppend("", seg, '/');
    assert "" + ['/'] + seg == "/" + seg;
    Text.SplitNoSep(seg, '/');
    Text.SplitAppend("", seg + "/" + rest, '/');
    assert "" + ['/'] + (seg + "/" + rest) == "/" + seg + "/" + rest;
    Text.SplitAppend(seg, rest, '/');
    assert seg + ['/'] + rest == seg + "/" + rest;
  }

  /** Only the three module tabs are ever selected by path; "/cart/…" and
      the root select "home". */
  lemma CurrentKeyExamples(rest: string)
    ensures CurrentKey("/catalog/" + rest) == "catalog"
    ensures CurrentKey("/cart/" + rest) == "home"
    ensures CurrentKey("/") == "home"
    ensures CurrentKey("") == "home"
  {
    FirstSegmentBetweenSlashes("catalog", rest);
    assert "/catalog/" + rest == "/" + "catalog" + "/" + rest;
    FirstSegmentBetweenSlashes("cart", rest);
    assert "/cart/" + rest == "/" + "cart" + "/" + rest;
    FirstSegmentBetweenSlashes("", "");
    assert "/" + "" == "/";
  }

  /** handleActionClick's navigation target: a truthy `to` whatever the key,
      else "/cart" for key "cart", "/wish" for key "wish", else nothing. */
  function ActionTarget(a: Action): (target: Option<string>)
    ensures a.to.Some? && a.to.value != "" ==> target == a.to
    ensures !(a.to.Some? && a.to.value != "") ==>
      target == (if a.key == "cart" then Some("/cart") else if a.key == "wish" then Some("/wish") else None)
  {
    if a.to.Some? && a.to.value != "" then a.to
    else if a.key == "cart" then Some("/cart")
    else if a.key == "wish" then Some("/wish")
    else None
  }

  /** Over the configured tabs, the home tab has no actions, catalog has
      exactly cart, filter, sort and wish, and a click navigates only for
      cart ("/cart") and wish ("/wishlist"): the "/wish" fallback is never
      taken by a configured action. */
  lemma ConfiguredActionTargets(key: string, k: int)
    requires TabConfig(key).Some?
    requires 0 <= k < |TabConfig(key).value.actions|
    ensures var a := TabConfig(key).value.actions[k];
      && ActionTarget(a) != Some("/wish")
      && (ActionTarget(a).Some? <==> a.key in {"cart", "wish"})
      && (a.key == "cart" ==> ActionTarget(a) == Some("/cart"))
      && (a.key == "wish" ==> ActionTarget(a) == Some("/wishlist"))
    ensures TabConfig("home").value.actions == []
    ensures |TabConfig("catalog").value.actions| == 4
    ensures forall j :: 0 <= j < 4 ==>
      TabConfig("catalog").value.actions[j].key == ["cart", "filter", "sort", "wish"][j]
  {
  }
}

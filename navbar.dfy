/** The top navigation bar of src/topnavigation/Navbar.jsx: which item is
    highlighted for the current location, and which fetched items are kept. */
module Navbar {
  import opened Wrappers
  import Text

  /** The current path: `location.pathname || "/"`. */
  function CurrentPath(pathname: string): (p: string)
    ensures p != ""
    ensures pathname != "" ==> p == pathname
  {
    if pathname != "" then pathname else "/"
  }

  /** The `path` an item passes to isActive: absent (the default "/" applies),
      null, or a string. */
  datatype PathArg = Missing | Null | Path(s: string)

  /** isActive(itemPath = "/") against the current path. */
  function IsActive(current: string, itemPath: PathArg): bool {
    var path := match itemPath
      case Missing => Some("/")
      case Null => None
      case Path(s) => Some(s);
    if path.None? || path.value == "" then false
    else if path.value == "/" then current == "/"
    else if current == path.value then true
    else Text.StartsWith(current, path.value)
  }

  /** The matcher as a whole: a null or empty path is never active; the root
      is active exactly at "/"; any other path is active exactly when the
      current path starts with it (equality included). */
  lemma IsActiveSpec(current: string, itemPath: PathArg)
    ensures itemPath == Null || itemPath == Path("") ==> !IsActive(current, itemPath)
    ensures itemPath == Missing || itemPath == Path("/") ==> (IsActive(current, itemPath) <==> current == "/")
    ensures itemPath.Path? && itemPath.s != "" && itemPath.s != "/" ==>
      (IsActive(current, itemPath) <==> Text.StartsWith(current, itemPath.s))
  {
  }

  /** The root item is not highlighted on any other page. */
  lemma RootOnlyAtRoot(pathname: string)
    requires pathname != "" && pathname != "/"
    ensures !IsActive(CurrentPath(pathname), Path("/"))
  {
  }

  /** The prefix rule is textual, not per segment: "/orders" is active on
      "/orders/123" and also on "/ordersX". */
  lemma OrdersPrefixExamples()
    ensures IsActive("/orders/123", Path("/orders"))
    ensures IsActive("/ordersX", Path("/orders"))
    ensures !IsActive("/order", Path("/orders"))
  {
    assert Text.StartsWith("/orders/123", "/orders") by {
      assert "/orders/123"[..7] == "/orders";
    }
    assert Text.StartsWith("/ordersX", "/orders") by {
      assert "/ordersX"[..7] == "/orders";
    }
  }

  /** A fetched navigation item: its `visible` flag and its path. */
  datatype NavItem = NavItem(id: int, name: string, path: PathArg, visible: bool)

  /** What getNavbarItems gave: a rejection, a non-array value, or an array.
      topNav.service.js catches every error and resolves with [], so with
      that service `Rejected` never occurs; it models the effect's `catch`. */
  datatype NavResponse = Rejected | NotArray | Items(items: seq<NavItem>)

  /** `items.filter(item => item.visible)` */
  function VisibleOnly(items: seq<NavItem>): (r: seq<NavItem>)
    ensures forall k :: 0 <= k < |r| ==> r[k].visible && r[k] in items
    ensures forall k :: 0 <= k < |items| && items[k].visible ==> items[k] in r
    ensures |r| <= |items|
  {
    if items == [] then []
    else if items[0].visible then [items[0]] + VisibleOnly(items[1..])
    else VisibleOnly(items[1..])
  }

  /** The filter keeps the visible items in their order: it distributes over
      concatenation. */
  lemma {:induction false} VisibleOnlyAppend(a: seq<NavItem>, b: seq<NavItem>)
    ensures VisibleOnly(a + b) == VisibleOnly(a) + VisibleOnly(b)
    decreases |a|
  {
    if a == [] {
      assert a + b == b;
    } else {
      assert (a + b)[0] == a[0];
      assert (a + b)[1..] == a[1..] + b;
      VisibleOnlyAppend(a[1..], b);
    }
  }

  /** The nav items after the fetch effect: a rejected fetch keeps the
      previous list (only logged), a non-array gives an empty list, an array
      its visible items. */
  function NavItemsAfterFetch(previous: seq<NavItem>, response: NavResponse): (r: seq<NavItem>)
    ensures response.Rejected? ==> r == previous
    ensures response.NotArray? ==> r == []
    ensures response.Items? ==> r == VisibleOnly(response.items)
    ensures response.Items? ==> forall k :: 0 <= k < |r| ==> r[k].visible
  {
    match response
    case Rejected => previous
    case NotArray => []
    case Items(items) => VisibleOnly(items)
  }

  /** Filtering twice is filtering once. */
  lemma {:induction false} VisibleOnlyIdempotent(items: seq<NavItem>)
    ensures VisibleOnly(VisibleOnly(items)) == VisibleOnly(items)
    decreases |items|
  {
    if items != [] {
      VisibleOnlyIdempotent(items[1..]);
    }
  }
}

/**
 * The sidebar's navigation: six items, and which of them is highlighted
 * for the current location.
 */
module Sidebar {
  import opened Text

  /** A nav entry: the text shown (the source's `label`) and the route it links to. */
  datatype NavItem = NavItem(name: string, path: string)

  const NavItems: seq<NavItem> := [
    NavItem("Dashboard", "/dashboard"),
    NavItem("Pay Fee", "/payfee"),
    NavItem("Courses", "/courses"),
    NavItem("Students", "/students"),
    NavItem("Payments", "/payments"),
    NavItem("Profile", "/profile")
  ]

  /** `pathname === item.path || pathname.startsWith(item.path + "/")`. */
  predicate IsActive(pathname: string, item: NavItem) {
    pathname == item.path || StartsWith(pathname, item.path + "/")
  }

  /**
   * An item is active exactly when its path is a prefix of the location and
   * the location either ends there or continues with a slash.
   */
  lemma IsActiveIff(pathname: string, item: NavItem)
    ensures IsActive(pathname, item) <==>
              StartsWith(pathname, item.path)
              && (|pathname| == |item.path| || pathname[|item.path|] == '/')
  {
    var p := item.path;
    if StartsWith(pathname, p + "/") {
      assert pathname[..|p|] == (p + "/")[..|p|] == p;
      assert pathname[|p|] == (p + "/")[|p|];
    }
    if StartsWith(pathname, p) && |pathname| > |p| && pathname[|p|] == '/' {
      assert pathname[..|p| + 1] == pathname[..|p|] + [pathname[|p|]];
    }
    if StartsWith(pathname, p) && |pathname| == |p| {
      assert pathname == pathname[..|p|];
    }
  }

  /** A slash followed by a single segment with no further slash. */
  predicate SingleSegment(path: string) {
    |path| >= 2 && path[0] == '/' && forall k :: 1 <= k < |path| ==> path[k] != '/'
  }

  /** Two different single-segment paths are never active at the same location. */
  lemma SingleSegmentsExclusive(pathname: string, a: NavItem, b: NavItem)
    requires SingleSegment(a.path) && SingleSegment(b.path)
    requires IsActive(pathname, a) && IsActive(pathname, b)
    ensures a.path == b.path
  {
    IsActiveIff(pathname, a);
    IsActiveIff(pathname, b);
    var p, q := a.path, b.path;
    if |p| == |q| {
      assert p == pathname[..|p|] == q;
    }
  }

  /** Every sidebar path is a single segment, and no two are equal. */
  lemma NavItemsShape()
    ensures forall i :: 0 <= i < |NavItems| ==> SingleSegment(NavItems[i].path)
    ensures forall i, j :: 0 <= i < j < |NavItems| ==> NavItems[i].path != NavItems[j].path
  {
    forall i, j | 0 <= i < j < |NavItems| ensures NavItems[i].path != NavItems[j].path {
      assert NavItems[i].path[1] != NavItems[j].path[1] || NavItems[i].path[2] != NavItems[j].path[2]
             || NavItems[i].path[4] != NavItems[j].path[4];
    }
  }

  /** At most one item of the sidebar is highlighted, wherever the user is. */
  lemma AtMostOneActive(pathname: string)
    ensures forall i, j :: 0 <= i < j < |NavItems| && IsActive(pathname, NavItems[i]) ==> !IsActive(pathname, NavItems[j])
  {
    NavItemsShape();
    forall i, j | 0 <= i < j < |NavItems| && IsActive(pathname, NavItems[i])
      ensures !IsActive(pathname, NavItems[j])
    {
      if IsActive(pathname, NavItems[j]) {
        SingleSegmentsExclusive(pathname, NavItems[i], NavItems[j]);
      }
    }
  }

  /** A location that differs from an item's path at some position inside both does not activate it. */
  lemma DiffersAt(pathname: string, item: NavItem, k: nat)
    requires k < |item.path| && k < |pathname| && pathname[k] != item.path[k]
    ensures !IsActive(pathname, item)
  {
    IsActiveIff(pathname, item);
  }

  /** A location shorter than an item's path does not activate it. */
  lemma ShorterThan(pathname: string, item: NavItem)
    requires |pathname| < |item.path|
    ensures !IsActive(pathname, item)
  {
    IsActiveIff(pathname, item);
  }

  /** No sidebar item is active at `pathname`. */
  predicate NoneActive(pathname: string) {
    forall i :: 0 <= i < |NavItems| ==> !IsActive(pathname, NavItems[i])
  }

  /** A sub-page highlights its section, and a section's own path highlights it. */
  lemma SubPagesActivate()
    ensures IsActive("/payfee/7", NavItems[1])
    ensures IsActive("/students", NavItems[3])
  {
    assert "/payfee/7"[..|"/payfee/"|] == "/payfee/";
  }

  /** A path that merely starts like "/payfee" highlights nothing. */
  lemma LookAlikeActivatesNothing()
    ensures NoneActive("/payfeex")
  {
    var x := "/payfeex";
    DiffersAt(x, NavItems[0], 1);
    IsActiveIff(x, NavItems[1]);
    assert x[7] == 'x';
    DiffersAt(x, NavItems[2], 1);
    DiffersAt(x, NavItems[3], 1);
    DiffersAt(x, NavItems[4], 4);
    DiffersAt(x, NavItems[5], 2);
  }

  /** The root highlights nothing. */
  lemma RootActivatesNothing()
    ensures NoneActive("/")
  {
    forall i | 0 <= i < |NavItems| ensures !IsActive("/", NavItems[i]) {
      ShorterThan("/", NavItems[i]);
    }
  }

  /** "/student/update/3" highlights nothing: "/student/" is not "/students/". */
  lemma StudentUpdateActivatesNothing()
    ensures NoneActive("/student/update/3")
  {
    var u := "/student/update/3";
    DiffersAt(u, NavItems[0], 1);
    DiffersAt(u, NavItems[1], 1);
    DiffersAt(u, NavItems[2], 1);
    DiffersAt(u, NavItems[3], 8);
    DiffersAt(u, NavItems[4], 1);
    DiffersAt(u, NavItems[5], 1);
  }
}

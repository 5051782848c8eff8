/** The site's navigation bar: the table of links, the active-link test,
    and the click handler that turns a same-page `route#hash` link into a
    scroll instead of a navigation. */
module Navbar {
  import opened Wrappers
  import opened Text

  /** A link path cut at its first `#`: `path.split('#')` destructured into
      `[route, hash]`. */
  datatype HashLink = HashLink(route: string, hash: string)

  /** `path.includes('#')` and then `path.split('#')`: no split for a path
      without `#`; otherwise the text before the first `#` and the text
      between it and the next `#` (or the end); anything after a second `#`
      is dropped. */
  function SplitHashLink(path: string): (r: Option<HashLink>)
    ensures r.None? <==> '#' !in path
    ensures r.Some? ==> '#' !in r.value.route && '#' !in r.value.hash
    ensures r.Some? ==> r.value.route == path[..IndexOf(path, '#')]
    ensures r.Some? ==> var rest := path[IndexOf(path, '#') + 1..];
      r.value.hash == if '#' in rest then rest[..IndexOf(rest, '#')] else rest
  {
    if '#' !in path then None
    else
      var parts := Split(path, '#');
      SplitFirst(path, '#');
      SplitSecond(path, '#');
      Some(HashLink(parts[0], parts[1]))
  }

  /** With exactly one `#`, the path is the route, the `#` and the hash:
      nothing of the path is lost. */
  lemma SplitHashLinkRoundTrip(route: string, hash: string)
    requires '#' !in route && '#' !in hash
    ensures SplitHashLink(route + "#" + hash) == Some(HashLink(route, hash))
  {
    var path := route + "#" + hash;
    SplitJoin([route, hash], '#');
    assert Join([route, hash], '#') == path by {
      assert Join([route, hash][1..], '#') == hash;
    }
  }

  /** Anything after a second `#` is dropped: `/x#a#b` targets `/x` and
      scrolls to `a`. */
  lemma SecondHashDropped()
    ensures SplitHashLink("/x#a#b") == Some(HashLink("/x", "a"))
  {
    var path := "/x#a#b";
    assert path[..2] == "/x" && '#' !in path[..2];
    IndexOfUnique(path, '#', 2);
    var rest := path[3..];
    assert rest == "a#b" && rest[..1] == "a";
    IndexOfUnique(rest, '#', 1);
    assert '#' in rest;
    var r := SplitHashLink(path);
    assert r.value.route == "/x";
    assert r.value.hash == "a";
  }

  /** `route || '/'`: an empty route means the home page. */
  function TargetRoute(route: string): (t: string)
    ensures t != ""
    ensures route != "" ==> t == route
    ensures route == "" ==> t == "/"
  {
    if route == "" then "/" else route
  }

  /** The decision of `handleLinkClick`: a click is intercepted exactly when
      the path holds a `#` and the page already shown is its target route;
      the result is then the hash to scroll to, the piece right after the
      first `#`, which never holds a `#` itself. Otherwise it is nothing,
      and the router navigates as usual. */
  function Intercept(pathname: string, path: string): (r: Option<string>)
    ensures r.Some? <==> '#' in path && pathname == TargetRoute(path[..IndexOf(path, '#')])
    ensures r.Some? ==> r.value == SplitHashLink(path).value.hash && '#' !in r.value
  {
    match SplitHashLink(path)
    case None => None
    case Some(link) => if pathname == TargetRoute(link.route) then Some(link.hash) else None
  }

  /** A path without `#` is never intercepted, whatever page is shown. */
  lemma PlainPathNotIntercepted(pathname: string, path: string)
    requires '#' !in path
    ensures Intercept(pathname, path) == None
  {
  }

  /** The contact link: on the home page it scrolls to `contact`; from any
      other page it navigates. */
  lemma ContactLinkFromHome(pathname: string)
    ensures Intercept(pathname, "/#contact") == (if pathname == "/" then Some("contact") else None)
  {
    SplitHashLinkRoundTrip("/", "contact");
    assert "/" + "#" + "contact" == "/#contact";
  }

  /** A bare `#hash` link targets the home page. */
  lemma BareHashTargetsHome(hash: string)
    requires '#' !in hash
    ensures Intercept("/", "#" + hash) == Some(hash)
  {
    SplitHashLinkRoundTrip("", hash);
    assert "" + "#" + hash == "#" + hash;
  }

  /** `document.getElementById(hash)` in the scheduled callback: the page
      scrolls to the element whose id is the hash, when there is one. No
      element has the empty id, so an empty hash finds nothing. */
  function ScrolledElement(hash: string, elementIds: set<string>): (r: Option<string>)
    ensures r.Some? <==> hash != "" && hash in elementIds
    ensures r.Some? ==> r.value == hash
  {
    if hash != "" && hash in elementIds then Some(hash) else None
  }

  /** After a click, the scheduled callback scrolls to an element exactly
      when the click was intercepted and the hash piece of the path names an
      element of the page (an empty hash, as in `/#`, names none); the element
      is the one with that id. */
  lemma ClickScrollsToHash(pathname: string, path: string, elementIds: set<string>)
    ensures var scheduled := Intercept(pathname, path);
      (scheduled.Some? && ScrolledElement(scheduled.value, elementIds).Some?) <==>
        ('#' in path && pathname == TargetRoute(SplitHashLink(path).value.route)
          && SplitHashLink(path).value.hash != "" && SplitHashLink(path).value.hash in elementIds)
    ensures var scheduled := Intercept(pathname, path);
      scheduled.Some? && ScrolledElement(scheduled.value, elementIds).Some? ==>
        ScrolledElement(scheduled.value, elementIds).value == SplitHashLink(path).value.hash
  {
  }

  /** One entry of the `links` table. */
  datatype NavLink = NavLink(name: string, path: string)

  const Links: seq<NavLink> := [
    NavLink("Home", "/"),
    NavLink("About", "/about"),
    NavLink("Services", "/services"),
    NavLink("Portfolio", "/portfolio"),
    NavLink("Contact", "/#contact")
  ]

  /** `location.pathname === link.path`. */
  predicate IsActive(pathname: string, link: NavLink) {
    pathname == link.path
  }

  /** The links drawn as active for the given pathname, in table order. */
  function ActiveLinks(links: seq<NavLink>, pathname: string): (active: seq<NavLink>)
    ensures |active| <= |links|
    ensures forall l :: l in active <==> l in links && IsActive(pathname, l)
  {
    if links == [] then []
    else (if IsActive(pathname, links[0]) then [links[0]] else []) + ActiveLinks(links[1..], pathname)
  }

  /** No two links of the table share a path. */
  ghost predicate DistinctPaths(links: seq<NavLink>) {
    forall i, j :: 0 <= i < j < |links| ==> links[i].path != links[j].path
  }

  /** With distinct paths, at most one link is active at a time. */
  lemma {:induction false} AtMostOneActive(links: seq<NavLink>, pathname: string)
    requires DistinctPaths(links)
    ensures |ActiveLinks(links, pathname)| <= 1
  {
    if links != [] {
      var rest := links[1..];
      AtMostOneActive(rest, pathname);
      if IsActive(pathname, links[0]) {
        assert forall j :: 0 <= j < |rest| ==> rest[j] == links[j + 1];
        NoneActive(rest, pathname);
      }
    }
  }

  lemma NoneActive(links: seq<NavLink>, pathname: string)
    requires forall j :: 0 <= j < |links| ==> !IsActive(pathname, links[j])
    ensures ActiveLinks(links, pathname) == []
  {
  }

  /** The table has distinct paths, so the bar highlights at most one link;
      and the contact link, whose path holds a `#`, is highlighted only for a
      pathname holding a `#`. The hash router's pathname never holds one: it
      cuts the path it reads from the URL fragment at the first `#`. */
  lemma LinksHighlighting(pathname: string)
    ensures |ActiveLinks(Links, pathname)| <= 1
    ensures '#' !in pathname ==> NavLink("Contact", "/#contact") !in ActiveLinks(Links, pathname)
  {
    AtMostOneActive(Links, pathname);
    assert "/#contact"[1] == '#';
  }

  /** The click event; only whether default navigation was prevented is
      observed. */
  class ClickEvent {
    var defaultPrevented: bool

    constructor ()
      ensures !defaultPrevented
    {
      defaultPrevented := false;
    }

    /** `e.preventDefault()`. */
    method PreventDefault()
      modifies this
      ensures defaultPrevented
    {
      defaultPrevented := true;
    }
  }

  /** The bar's state cells. */
  class NavBar {
    var scrolled: bool
    var mobileMenuOpen: bool

    constructor ()
      ensures !scrolled && !mobileMenuOpen
    {
      scrolled, mobileMenuOpen := false, false;
    }

    /** The scroll listener: the bar turns compact past 50 pixels. */
    method HandleScroll(scrollY: int)
      modifies this
      ensures scrolled == (scrollY > 50)
      ensures mobileMenuOpen == old(mobileMenuOpen)
    {
      scrolled := scrollY > 50;
    }

    /** The mobile toggle button. */
    method ToggleMenu()
      modifies this
      ensures mobileMenuOpen == !old(mobileMenuOpen)
      ensures scrolled == old(scrolled)
    {
      mobileMenuOpen := !mobileMenuOpen;
    }

    /** `handleLinkClick`: every click closes the mobile menu; a same-page
      hash link cancels the navigation and schedules a scroll to its hash,
      returned here as the scheduled target. */
    method HandleLinkClick(e: ClickEvent, pathname: string, path: string) returns (scheduled: Option<string>)
      modifies this, e
      ensures !mobileMenuOpen && scrolled == old(scrolled)
      ensures scheduled == Intercept(pathname, path)
      ensures e.defaultPrevented == (old(e.defaultPrevented) || scheduled.Some?)
    {
      mobileMenuOpen := false;
      scheduled := None;
      if '#' in path {
        var parts := Split(path, '#');
        var route, hash := parts[0], parts[1];
        var targetRoute := if route == "" then "/" else route;
        var isSamePage := pathname == targetRoute;
        if isSamePage {
          e.PreventDefault();
          scheduled := Some(hash);
        }
      }
    }
  }
}

// The navigation sidebar: which link is highlighted for the current path,
// and the three collapsible sections.

module Sidebar {
  import opened Common

  /** The main links, then the resource links, both highlighted by `isActive`. */
  const MainPaths: seq<string> := ["/", "/popular", "/answers", "/explore", "/all"]
  const ResourcePaths: seq<string> := ["/about", "/advertise", "/developers", "/help", "/blog", "/careers"]

  function NavPaths(): seq<string> {
    MainPaths + ResourcePaths
  }

  /** `isActive`: Home only on exactly `/`; any other link on every path it begins. */
  predicate IsActive(pathname: string, path: string) {
    if path == "/" then pathname == "/" else StartsWith(pathname, path)
  }

  /** The match is by characters, not by path segments. */
  lemma PrefixNotSegment()
    ensures IsActive("/allposts", "/all")
    ensures IsActive("/all", "/all")
    ensures !IsActive("/popular", "/")
  {
    assert "/allposts"[..4] == "/all";
  }

  /** Two prefixes of one path agree on the characters both of them cover. */
  lemma SharedPrefix(pathname: string, a: string, b: string)
    requires StartsWith(pathname, a) && StartsWith(pathname, b)
    requires |a| >= 3 && |b| >= 3
    ensures a[1] == b[1] && a[2] == b[2]
  {
    assert a[1] == pathname[..|a|][1] && a[2] == pathname[..|a|][2];
    assert b[1] == pathname[..|b|][1] && b[2] == pathname[..|b|][2];
  }

  /** Every link but Home is told apart from the others by its second and third characters. */
  lemma NavPathsShape()
    ensures |NavPaths()| == 11 && NavPaths()[0] == "/"
    ensures forall i :: 1 <= i < 11 ==> |NavPaths()[i]| >= 4 && NavPaths()[i][0] == '/'
    ensures forall i, j :: 1 <= i < j < 11 ==>
      NavPaths()[i][1] != NavPaths()[j][1] || NavPaths()[i][2] != NavPaths()[j][2]
  {
  }

  /** At most one link is highlighted, whatever the path. */
  lemma AtMostOneActive(pathname: string, i: nat, j: nat)
    requires i < j < |NavPaths()|
    ensures !(IsActive(pathname, NavPaths()[i]) && IsActive(pathname, NavPaths()[j]))
  {
    NavPathsShape();
    var paths := NavPaths();
    if i != 0 && IsActive(pathname, paths[i]) && IsActive(pathname, paths[j]) {
      SharedPrefix(pathname, paths[i], paths[j]);
    }
  }

  class Sections {
    var recentOpen: bool
    var communitiesOpen: bool
    var resourcesOpen: bool

    constructor ()
      ensures recentOpen && communitiesOpen && resourcesOpen
    {
      recentOpen := true;
      communitiesOpen := true;
      resourcesOpen := true;
    }

    method ToggleRecent()
      modifies this
      ensures recentOpen == !old(recentOpen)
      ensures communitiesOpen == old(communitiesOpen) && resourcesOpen == old(resourcesOpen)
    {
      recentOpen := !recentOpen;
    }

    method ToggleCommunities()
      modifies this
      ensures communitiesOpen == !old(communitiesOpen)
      ensures recentOpen == old(recentOpen) && resourcesOpen == old(resourcesOpen)
    {
      communitiesOpen := !communitiesOpen;
    }

    method ToggleResources()
      modifies this
      ensures resourcesOpen == !old(resourcesOpen)
      ensures recentOpen == old(recentOpen) && communitiesOpen == old(communitiesOpen)
    {
      resourcesOpen := !resourcesOpen;
    }
  }
}

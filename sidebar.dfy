/** The sidebar's active-item rule, written identically in frontend/js/dashboard.js
    and frontend/js/estoque.js: after the sidebar HTML is loaded, every `.nav-item`
    is marked active exactly when its `href` equals the last segment of the page's
    path. */
module Sidebar {
  import opened Wrappers

  /** `path.split("/").pop()`: the text after the last '/', or the whole path
      when it has none. */
  function LastSegment(path: string): (r: string)
    ensures |r| <= |path| && r == path[|path| - |r|..]
    ensures '/' !in r
    ensures r == path || path[|path| - |r| - 1] == '/'
  {
    if path == [] then []
    else if path[|path| - 1] == '/' then []
    else
      var init := LastSegment(path[..|path| - 1]);
      assert path[..|path| - 1][|path| - 1 - |init|..] + [path[|path| - 1]] == path[|path| - 1 - |init|..];
      init + [path[|path| - 1]]
  }

  /** The last segment of `dir/name` is `name` whenever `name` holds no '/'. */
  lemma {:induction false} LastSegmentOfJoin(dir: string, name: string)
    requires '/' !in name
    ensures LastSegment(dir + "/" + name) == name
  {
    if name == [] {
      assert (dir + "/" + name)[|dir + "/" + name| - 1] == '/';
    } else {
      var last := name[|name| - 1];
      assert (dir + "/" + name)[..|dir + "/" + name| - 1] == dir + "/" + name[..|name| - 1];
      assert last in name;
      LastSegmentOfJoin(dir, name[..|name| - 1]);
      assert name[..|name| - 1] + [last] == name;
    }
  }

  /** A path without '/' is its own last segment. */
  lemma {:induction false} LastSegmentNoSlash(path: string)
    requires '/' !in path
    ensures LastSegment(path) == path
  {
    if path != [] {
      assert path[|path| - 1] in path;
      assert forall c :: c in path[..|path| - 1] ==> c in path;
      LastSegmentNoSlash(path[..|path| - 1]);
      assert path[..|path| - 1] + [path[|path| - 1]] == path;
    }
  }

  /** Whether a nav item is active: `href === currentPage`; an item without an
      `href` attribute (`getAttribute` returns null) never is. */
  predicate IsCurrent(href: Option<string>, path: string) {
    href == Some(LastSegment(path))
  }

  /** The `.nav-item` links of the loaded sidebar and their "active" classes. */
  class NavMenu {
    const hrefs: seq<Option<string>>
    var active: seq<bool>

    ghost predicate Valid()
      reads this
    {
      |active| == |hrefs|
    }

    constructor (hrefs: seq<Option<string>>)
      ensures this.hrefs == hrefs && Valid()
      ensures forall i :: 0 <= i < |hrefs| ==> !active[i]
    {
      this.hrefs := hrefs;
      active := seq(|hrefs|, i => false);
    }

    /** The `forEach` that calls `classList.toggle("active", href === currentPage)`
        on every item, in document order. */
    method MarkActive(path: string)
      requires Valid()
      modifies this`active
      ensures Valid()
      ensures forall i :: 0 <= i < |hrefs| ==> (active[i] <==> IsCurrent(hrefs[i], path))
    {
      var currentPage := LastSegment(path);
      var i := 0;
      while i < |hrefs|
        invariant 0 <= i <= |hrefs| && |active| == |hrefs|
        invariant forall j :: 0 <= j < i ==> (active[j] <==> IsCurrent(hrefs[j], path))
      {
        active := active[i := hrefs[i] == Some(currentPage)];
        i := i + 1;
      }
    }
  }
}

/** The sidebar script toc.js of the generated book: the canonical current page, the rewrite of
    relative links, the choice of the active link, the expansion of its ancestors, the section
    toggle and the one-shot restore of the sidebar scroll position. The page's element tree is an
    arena of numbered nodes with their parent, previous sibling and class sets. */
module Toc {
  import opened Wrappers

  /** `s.split(c)[0]`: everything before the first `c`, or all of `s` when it has none. */
  function Before(s: string, c: char): (r: string)
    ensures r <= s && c !in r
    ensures |r| < |s| ==> s[|r|] == c
    ensures c !in s ==> r == s
  {
    if s == [] then [] else if s[0] == c then [] else [s[0]] + Before(s[1..], c)
  }

  predicate EndsWith(s: string, suffix: string) {
    |suffix| <= |s| && s[|s| - |suffix|..] == suffix
  }

  /** `current_page`: the location cut at its first `#`, then at its first `?`, with
      `index.html` appended to a directory. */
  function CurrentPage(location: string): (page: string)
    ensures '#' !in page && '?' !in page
    ensures !EndsWith(page, "/")
    ensures var stem := Before(Before(location, '#'), '?');
      stem <= location && page == if EndsWith(stem, "/") then stem + "index.html" else stem
  {
    var stem := Before(Before(location, '#'), '?');
    if EndsWith(stem, "/") then
      var page := stem + "index.html";
      assert page[|page| - 1..] == "l";
      assert '#' !in "index.html" && '?' !in "index.html";
      page
    else stem
  }

  /** Canonicalising a canonical page changes nothing. */
  lemma CurrentPageIdempotent(location: string)
    ensures CurrentPage(CurrentPage(location)) == CurrentPage(location)
  {
    var page := CurrentPage(location);
    assert Before(Before(page, '#'), '?') == page;
  }

  /** A character of `[a-z+]`. */
  predicate SchemeChar(ch: char) {
    'a' <= ch <= 'z' || ch == '+'
  }

  predicate AllScheme(s: string) {
    forall i :: 0 <= i < |s| ==> SchemeChar(s[i])
  }

  predicate SlashesAt(h: string, k: nat) {
    k + 2 <= |h| && h[k] == '/' && h[k + 1] == '/'
  }

  /** What the regular expression `^(?:[a-z+]+:)?//` accepts: `//` at the start, or a
      non-empty run of `[a-z+]`, a colon and `//`. */
  predicate AbsoluteUrl(h: string) {
    SlashesAt(h, 0) || exists k :: 0 < k < |h| && AllScheme(h[..k]) && h[k] == ':' && SlashesAt(h, k + 1)
  }

  /** The length of the leading run of `[a-z+]`. */
  function SchemeLength(h: string): (n: nat)
    ensures n <= |h| && AllScheme(h[..n])
    ensures n < |h| ==> !SchemeChar(h[n])
  {
    if h == [] || !SchemeChar(h[0]) then 0
    else
      var n := 1 + SchemeLength(h[1..]);
      assert h[..n] == [h[0]] + h[1..][..n - 1];
      n
  }

  /** A matcher for the same expression: the scheme, if any, is the whole leading run of
      `[a-z+]`, since a colon is not one of them. */
  predicate MatchesAbsoluteUrl(h: string) {
    var n := SchemeLength(h);
    SlashesAt(h, 0) || (0 < n < |h| && h[n] == ':' && SlashesAt(h, n + 1))
  }

  lemma MatcherIsRegex(h: string)
    ensures MatchesAbsoluteUrl(h) <==> AbsoluteUrl(h)
  {
    var n := SchemeLength(h);
    if !SlashesAt(h, 0) && AbsoluteUrl(h) {
      var k :| 0 < k < |h| && AllScheme(h[..k]) && h[k] == ':' && SlashesAt(h, k + 1);
      forall i | 0 <= i < n ensures SchemeChar(h[i]) { assert h[..n][i] == h[i]; }
      forall i | 0 <= i < k ensures SchemeChar(h[i]) { assert h[..k][i] == h[i]; }
      assert k == n;
    }
  }

  /** The links the script leaves alone: an empty href, an in-page anchor, or an absolute or
      protocol-relative URL. */
  predicate KeptAsIs(h: string) {
    h == "" || h[0] == '#' || AbsoluteUrl(h)
  }

  /** The href attribute after the rewrite: every other link is made relative to the book's
      root by prefixing `path_to_root`; a link with no href attribute stays without one. */
  function Rewritten(href: Option<string>, pathToRoot: string): (r: Option<string>)
    ensures href.None? ==> r.None?
    ensures href.Some? ==> r == if KeptAsIs(href.value) then href else Some(pathToRoot + href.value)
  {
    match href
    case None => None
    case Some(h) =>
      MatcherIsRegex(h);
      if h != "" && h[0] != '#' && !MatchesAbsoluteUrl(h) then Some(pathToRoot + h) else href
  }

  /** The `link.href` property: the attribute resolved against the document's address by the
      browser (`resolve`), or the empty string when there is no attribute. */
  function LinkHref(resolve: string -> string, href: Option<string>): string {
    match href
    case None => ""
    case Some(h) => resolve(h)
  }

  /** The active-link rule for the link at position `i` in document order. */
  predicate IsActive(resolve: string -> string, href: Option<string>, i: nat, pathToRoot: string, page: string) {
    LinkHref(resolve, href) == page || (i == 0 && pathToRoot == "" && EndsWith(page, "/index.html"))
  }

  /** The classes after `classList.toggle('expanded')`. */
  function Toggled(cls: set<string>): (r: set<string>)
    ensures "expanded" in r <==> "expanded" !in cls
    ensures r - {"expanded"} == cls - {"expanded"}
  {
    if "expanded" in cls then cls - {"expanded"} else cls + {"expanded"}
  }

  /** Toggling twice restores the classes. */
  lemma ToggleTwice(cls: set<string>)
    ensures Toggled(Toggled(cls)) == cls
  {
  }

  /** The `sidebar-scroll` entry of the session storage. */
  const ScrollKey := "sidebar-scroll"

  /** A click on a link records the sidebar's scroll offset. */
  function SaveScroll(storage: map<string, string>, scrollTop: string): (r: map<string, string>)
    ensures ScrollKey in r && r[ScrollKey] == scrollTop
    ensures forall k :: k in storage && k != ScrollKey ==> k in r && r[k] == storage[k]
  {
    storage[ScrollKey := scrollTop]
  }

  /** On load the stored offset is read and removed; a non-empty one is applied. */
  datatype Restore = Restore(storage: map<string, string>, applied: Option<string>)

  function RestoreScroll(storage: map<string, string>): (r: Restore)
    ensures ScrollKey !in r.storage
    ensures r.storage == storage - {ScrollKey}
    ensures r.applied.Some? <==> ScrollKey in storage && storage[ScrollKey] != ""
    ensures r.applied.Some? ==> r.applied.value == storage[ScrollKey]
  {
    var stored := if ScrollKey in storage then Some(storage[ScrollKey]) else None;
    var rest := map k | k in storage && k != ScrollKey :: storage[k];
    Restore(rest, if stored.Some? && stored.value != "" then stored else None)
  }

  /** The stored offset is used at most once: a second restore without a save in between
      applies nothing. */
  lemma ScrollUsedOnce(storage: map<string, string>)
    ensures RestoreScroll(RestoreScroll(storage).storage).applied == None
  {
  }

  /** A saved non-empty offset is what the next restore applies. */
  lemma ScrollRoundTrip(storage: map<string, string>, scrollTop: string)
    requires scrollTop != ""
    ensures RestoreScroll(SaveScroll(storage, scrollTop)).applied == Some(scrollTop)
  {
  }

  /** The sidebar's elements: node `i` has a parent `parent[i]` and a previous element sibling
      `previous[i]` (-1 when there is none), a tag that is or is not `LI`, its class set and its
      href attribute. `links` are the anchors in document order. */
  class Sidebar {
    const parent: seq<int>
    const previous: seq<int>
    const isLi: seq<bool>
    const links: seq<nat>
    ghost const depth: seq<nat>
    var classes: seq<set<string>>
    var hrefs: seq<Option<string>>

    /** The shape of an element tree: parents are nearer the root, and the links are distinct
        nodes. */
    ghost predicate Tree()
    {
      |previous| == |parent| && |isLi| == |parent| && |depth| == |parent| &&
      (forall i :: 0 <= i < |parent| ==> -1 <= parent[i] < |parent| && -1 <= previous[i] < |parent|) &&
      (forall i :: 0 <= i < |parent| && 0 <= parent[i] ==> depth[parent[i]] < depth[i]) &&
      (forall k :: 0 <= k < |links| ==> links[k] < |parent|) &&
      (forall k, k' :: 0 <= k < k' < |links| ==> links[k] != links[k'])
    }

    ghost predicate Valid()
      reads this
    {
      Tree() && |classes| == |parent| && |hrefs| == |parent|
    }

    constructor (parent: seq<int>, previous: seq<int>, isLi: seq<bool>, links: seq<nat>,
                 ghost depth: seq<nat>, classes: seq<set<string>>, hrefs: seq<Option<string>>)
      requires |classes| == |parent| && |hrefs| == |parent|
      requires |previous| == |parent| && |isLi| == |parent| && |depth| == |parent|
      requires forall i :: 0 <= i < |parent| ==> -1 <= parent[i] < |parent| && -1 <= previous[i] < |parent|
      requires forall i :: 0 <= i < |parent| && 0 <= parent[i] ==> depth[parent[i]] < depth[i]
      requires forall k :: 0 <= k < |links| ==> links[k] < |parent|
      requires forall k, k' :: 0 <= k < k' < |links| ==> links[k] != links[k']
      ensures Valid()
      ensures this.parent == parent && this.previous == previous && this.isLi == isLi && this.links == links
      ensures this.classes == classes && this.hrefs == hrefs
    {
      this.parent := parent;
      this.previous := previous;
      this.isLi := isLi;
      this.links := links;
      this.depth := depth;
      this.classes := classes;
      this.hrefs := hrefs;
    }

    /** The height of node `p` above the root, -1 standing for "no element". */
    ghost function Height(p: int): nat
      requires Tree() && -1 <= p < |parent|
    {
      if p < 0 then 0 else depth[p] + 1
    }

    /** One step of the ancestor walk: an `LI` whose previous sibling is a `chapter-item`
        expands that sibling. */
    function Step(cls: seq<set<string>>, p: nat): (r: seq<set<string>>)
      requires Tree() && |cls| == |parent| && p < |parent|
      ensures |r| == |cls|
    {
      var q := previous[p];
      if isLi[p] && 0 <= q && "chapter-item" in cls[q] then cls[q := cls[q] + {"expanded"}] else cls
    }

    /** The classes after the `while (parent)` walk from node `p` to the root. */
    ghost function Walk(cls: seq<set<string>>, p: int): (r: seq<set<string>>)
      requires Tree() && |cls| == |parent| && -1 <= p < |parent|
      ensures |r| == |cls|
      decreases Height(p)
    {
      if p < 0 then cls else Walk(Step(cls, p), parent[p])
    }

    /** `p` or one of its ancestors is `LI` with the previous sibling `q`. */
    ghost predicate ExpandsFrom(p: int, q: nat)
      requires Tree() && -1 <= p < |parent|
      decreases Height(p)
    {
      0 <= p && ((isLi[p] && previous[p] == q) || ExpandsFrom(parent[p], q))
    }

    /** The walk only adds `expanded`, and adds it exactly to the `chapter-item` previous
        siblings of the `LI` elements on the way to the root. */
    lemma {:induction false} WalkExpands(cls: seq<set<string>>, p: int, q: nat)
      requires Tree() && |cls| == |parent| && -1 <= p < |parent| && q < |parent|
      ensures Walk(cls, p)[q] - {"expanded"} == cls[q] - {"expanded"}
      ensures "expanded" in Walk(cls, p)[q] <==>
        "expanded" in cls[q] || ("chapter-item" in cls[q] && ExpandsFrom(p, q))
      decreases Height(p)
    {
      if 0 <= p {
        WalkExpands(Step(cls, p), parent[p], q);
      }
    }

    /** The link marked `active` and its parent, if a `chapter-item`, marked `expanded`. */
    ghost function Marked(cls: seq<set<string>>, link: nat): (r: seq<set<string>>)
      requires Tree() && |cls| == |parent| && link < |parent|
      ensures |r| == |cls|
    {
      var c1 := cls[link := cls[link] + {"active"}];
      var p := parent[link];
      if 0 <= p && "chapter-item" in c1[p] then c1[p := c1[p] + {"expanded"}] else c1
    }

    /** Node `q` is expanded on behalf of an active `link`: it is the link's parent, or the
        previous sibling of an `LI` among the link's ancestors. */
    ghost predicate ExpandedBy(link: nat, q: nat)
      requires Tree() && link < |parent|
    {
      parent[link] == q || ExpandsFrom(parent[link], q)
    }

    /** Marking an active link adds `active` to it alone, and `expanded` exactly to the
        `chapter-item` elements it expands. */
    lemma MarkedWalk(cls: seq<set<string>>, link: nat, i: nat)
      requires Tree() && |cls| == |parent| && link < |parent| && i < |parent|
      ensures var r := Walk(Marked(cls, link), parent[link]);
        cls[i] <= r[i] && r[i] <= cls[i] + {"active", "expanded"} && ("active" in r[i] <==> "active" in cls[i] || i == link)
      ensures "expanded" in Walk(Marked(cls, link), parent[link])[i] <==>
        "expanded" in cls[i] || ("chapter-item" in cls[i] && ExpandedBy(link, i))
    {
      var start := Marked(cls, link);
      var r := Walk(start, parent[link]);
      WalkExpands(start, parent[link], i);
      assert "active" != "expanded";
      assert cls[i] <= start[i] <= cls[i] + {"active", "expanded"};
      assert "active" in start[i] <==> "active" in cls[i] || i == link;
      assert start[i] <= r[i] by {
        forall x | x in start[i] ensures x in r[i] {
          if x != "expanded" {
            assert x in start[i] - {"expanded"};
          }
        }
      }
      assert r[i] <= start[i] + {"expanded"} by {
        forall x | x in r[i] ensures x in start[i] + {"expanded"} {
          if x != "expanded" {
            assert x in r[i] - {"expanded"};
          }
        }
      }
      assert "active" in r[i] <==> "active" in r[i] - {"expanded"};
      assert "chapter-item" in start[i] <==> "chapter-item" in cls[i];
      assert "expanded" in start[i] <==> "expanded" in cls[i] || ("chapter-item" in cls[i] && parent[link] == i);
    }

    /** The body of the `if` for an active link: mark it active, expand its parent if that is a
        `chapter-item`, then walk to the root. */
    method MarkActive(link: nat)
      requires Valid() && link < |parent|
      modifies this
      ensures Valid() && hrefs == old(hrefs)
      ensures classes == Walk(Marked(old(classes), link), parent[link])
      ensures forall i :: 0 <= i < |classes| ==>
        old(classes)[i] <= classes[i] && classes[i] <= old(classes)[i] + {"active", "expanded"}
      ensures forall i :: 0 <= i < |classes| ==> ("active" in classes[i] <==> "active" in old(classes)[i] || i == link)
      ensures forall i :: 0 <= i < |classes| ==>
        ("expanded" in classes[i] <==> "expanded" in old(classes)[i] || ("chapter-item" in old(classes)[i] && ExpandedBy(link, i)))
    {
      classes := classes[link := classes[link] + {"active"}];
      var p := parent[link];
      if 0 <= p && "chapter-item" in classes[p] {
        classes := classes[p := classes[p] + {"expanded"}];
      }
      assert classes == Marked(old(classes), link);
      ExpandAncestors(p);
      forall i | 0 <= i < |classes|
        ensures old(classes)[i] <= classes[i] && classes[i] <= old(classes)[i] + {"active", "expanded"}
        ensures "active" in classes[i] <==> "active" in old(classes)[i] || i == link
        ensures "expanded" in classes[i] <==> "expanded" in old(classes)[i] || ("chapter-item" in old(classes)[i] && ExpandedBy(link, i))
      {
        MarkedWalk(old(classes), link, i);
      }
    }

    /** The `while (parent)` loop. */
    method ExpandAncestors(p0: int)
      requires Valid() && -1 <= p0 < |parent|
      modifies this
      ensures Valid() && hrefs == old(hrefs)
      ensures classes == Walk(old(classes), p0)
    {
      var p := p0;
      while 0 <= p
        invariant Valid() && hrefs == old(hrefs) && -1 <= p < |parent|
        invariant Walk(classes, p) == Walk(old(classes), p0)
        decreases Height(p)
      {
        var q := previous[p];
        if isLi[p] && 0 <= q {
          if "chapter-item" in classes[q] {
            classes := classes[q := classes[q] + {"expanded"}];
          }
        }
        p := parent[p];
      }
    }

    /** `toggleSection`: flip `expanded` on the parent of the clicked toggle. */
    method ToggleSection(el: nat)
      requires Valid() && el < |parent| && 0 <= parent[el]
      modifies this
      ensures Valid() && hrefs == old(hrefs)
      ensures classes == old(classes)[parent[el] := Toggled(old(classes)[parent[el]])]
    {
      var p := parent[el];
      if "expanded" in classes[p] {
        classes := classes[p := classes[p] - {"expanded"}];
      } else {
        classes := classes[p := classes[p] + {"expanded"}];
      }
    }

    /** The link loop of `connectedCallback`: rewrite each link's href, then mark it if it is
        active. Hrefs of the links are rewritten and nothing else; classes only grow, by
        `active` and `expanded`; `active` lands exactly on the active links, and `expanded`
        exactly on the `chapter-item` elements some active link expands. */
    method MarkLinks(resolve: string -> string, pathToRoot: string, page: string)
      requires Valid()
      modifies this
      ensures Valid()
      ensures forall k :: 0 <= k < |links| ==> hrefs[links[k]] == Rewritten(old(hrefs)[links[k]], pathToRoot)
      ensures forall i :: 0 <= i < |hrefs| && i !in links ==> hrefs[i] == old(hrefs)[i]
      ensures forall i :: 0 <= i < |classes| ==>
        old(classes)[i] <= classes[i] && classes[i] <= old(classes)[i] + {"active", "expanded"}
      ensures forall i :: 0 <= i < |classes| ==>
        ("active" in classes[i] <==>
          ("active" in old(classes)[i] ||
           exists k :: 0 <= k < |links| && links[k] == i && IsActive(resolve, hrefs[i], k, pathToRoot, page)))
      ensures forall i :: 0 <= i < |classes| ==>
        ("expanded" in classes[i] <==>
          ("expanded" in old(classes)[i] ||
           ("chapter-item" in old(classes)[i] &&
            exists k :: 0 <= k < |links| && IsActive(resolve, hrefs[links[k]], k, pathToRoot, page) && ExpandedBy(links[k], i))))
    {
      for k := 0 to |links|
        invariant Valid()
        invariant forall j :: 0 <= j < k ==> hrefs[links[j]] == Rewritten(old(hrefs)[links[j]], pathToRoot)
        invariant forall i :: 0 <= i < |hrefs| && i !in links[..k] ==> hrefs[i] == old(hrefs)[i]
        invariant forall i :: 0 <= i < |classes| ==>
          old(classes)[i] <= classes[i] && classes[i] <= old(classes)[i] + {"active", "expanded"}
        invariant forall i :: 0 <= i < |classes| ==>
          ("active" in classes[i] <==>
            ("active" in old(classes)[i] ||
             exists j :: 0 <= j < k && links[j] == i && IsActive(resolve, hrefs[i], j, pathToRoot, page)))
        invariant forall i :: 0 <= i < |classes| ==>
          ("expanded" in classes[i] <==>
            ("expanded" in old(classes)[i] ||
             ("chapter-item" in old(classes)[i] &&
              exists j :: 0 <= j < k && IsActive(resolve, hrefs[links[j]], j, pathToRoot, page) && ExpandedBy(links[j], i))))
      {
        ghost var (c1, h1) := (classes, hrefs);
        MarkLink(resolve, pathToRoot, page, k);
        ActiveStep(resolve, pathToRoot, page, k, old(classes), c1, h1, classes, hrefs);
        ExpandedStep(resolve, pathToRoot, page, k, old(classes), c1, h1, classes, hrefs);
      }
    }

    /** The `active` invariant of the link loop survives turn `k`, which leaves the hrefs of
        the earlier links alone. */
    lemma ActiveStep(resolve: string -> string, pathToRoot: string, page: string, k: nat,
                     c0: seq<set<string>>, c1: seq<set<string>>, h1: seq<Option<string>>,
                     c2: seq<set<string>>, h2: seq<Option<string>>)
      requires Tree() && k < |links| && |c0| == |parent| && |c1| == |parent| && |c2| == |parent|
      requires |h1| == |parent| && |h2| == |parent| && h2 == h1[links[k] := h2[links[k]]]
      requires forall i :: 0 <= i < |c1| ==>
        ("active" in c1[i] <==>
          ("active" in c0[i] ||
           exists j :: 0 <= j < k && links[j] == i && IsActive(resolve, h1[i], j, pathToRoot, page)))
      requires forall i :: 0 <= i < |c2| ==>
        ("active" in c2[i] <==>
          ("active" in c1[i] || (i == links[k] && IsActive(resolve, h2[i], k, pathToRoot, page))))
      ensures forall i :: 0 <= i < |c2| ==>
        ("active" in c2[i] <==>
          ("active" in c0[i] ||
           exists j :: 0 <= j < k + 1 && links[j] == i && IsActive(resolve, h2[i], j, pathToRoot, page)))
    {
      forall i | 0 <= i < |c2|
        ensures "active" in c2[i] <==>
          ("active" in c0[i] ||
           exists j :: 0 <= j < k + 1 && links[j] == i && IsActive(resolve, h2[i], j, pathToRoot, page))
      {
        if i != links[k] {
          assert h2[i] == h1[i];
        }
      }
    }

    /** The `expanded` invariant of the link loop survives turn `k`, which leaves the hrefs of
        the earlier links alone and keeps `chapter-item` where it was. */
    lemma ExpandedStep(resolve: string -> string, pathToRoot: string, page: string, k: nat,
                       c0: seq<set<string>>, c1: seq<set<string>>, h1: seq<Option<string>>,
                       c2: seq<set<string>>, h2: seq<Option<string>>)
      requires Tree() && k < |links| && |c0| == |parent| && |c1| == |parent| && |c2| == |parent|
      requires |h1| == |parent| && |h2| == |parent| && h2 == h1[links[k] := h2[links[k]]]
      requires forall i :: 0 <= i < |c1| ==> c0[i] <= c1[i] && c1[i] <= c0[i] + {"active", "expanded"}
      requires forall i :: 0 <= i < |c1| ==>
        ("expanded" in c1[i] <==>
          ("expanded" in c0[i] ||
           ("chapter-item" in c0[i] &&
            exists j :: 0 <= j < k && IsActive(resolve, h1[links[j]], j, pathToRoot, page) && ExpandedBy(links[j], i))))
      requires forall i :: 0 <= i < |c2| ==>
        ("expanded" in c2[i] <==>
          ("expanded" in c1[i] ||
           ("chapter-item" in c1[i] && IsActive(resolve, h2[links[k]], k, pathToRoot, page) && ExpandedBy(links[k], i))))
      ensures forall i :: 0 <= i < |c2| ==>
        ("expanded" in c2[i] <==>
          ("expanded" in c0[i] ||
           ("chapter-item" in c0[i] &&
            exists j :: 0 <= j < k + 1 && IsActive(resolve, h2[links[j]], j, pathToRoot, page) && ExpandedBy(links[j], i))))
    {
      forall j | 0 <= j < k
        ensures h2[links[j]] == h1[links[j]]
      {
        assert links[j] != links[k];
      }
      forall i | 0 <= i < |c2|
        ensures "expanded" in c2[i] <==>
          ("expanded" in c0[i] ||
           ("chapter-item" in c0[i] &&
            exists j :: 0 <= j < k + 1 && IsActive(resolve, h2[links[j]], j, pathToRoot, page) && ExpandedBy(links[j], i)))
      {
        assert "chapter-item" in c1[i] <==> "chapter-item" in c0[i];
      }
    }

    /** One turn of the link loop, for the link at position `k`. */
    method MarkLink(resolve: string -> string, pathToRoot: string, page: string, k: nat)
      requires Valid() && k < |links|
      modifies this
      ensures Valid()
      ensures hrefs == old(hrefs)[links[k] := Rewritten(old(hrefs)[links[k]], pathToRoot)]
      ensures forall i :: 0 <= i < |classes| ==>
        old(classes)[i] <= classes[i] && classes[i] <= old(classes)[i] + {"active", "expanded"}
      ensures forall i :: 0 <= i < |classes| ==>
        ("active" in classes[i] <==>
          ("active" in old(classes)[i] || (i == links[k] && IsActive(resolve, hrefs[i], k, pathToRoot, page))))
      ensures forall i :: 0 <= i < |classes| ==>
        ("expanded" in classes[i] <==>
          ("expanded" in old(classes)[i] ||
           ("chapter-item" in old(classes)[i] && IsActive(resolve, hrefs[links[k]], k, pathToRoot, page) && ExpandedBy(links[k], i))))
      ensures IsActive(resolve, hrefs[links[k]], k, pathToRoot, page) ==>
        classes == Walk(Marked(old(classes), links[k]), parent[links[k]])
      ensures !IsActive(resolve, hrefs[links[k]], k, pathToRoot, page) ==> classes == old(classes)
    {
      var link := links[k];
      var href := hrefs[link];
      if href.Some? {
        MatcherIsRegex(href.value);
        if href.value != "" && href.value[0] != '#' && !MatchesAbsoluteUrl(href.value) {
          hrefs := hrefs[link := Some(pathToRoot + href.value)];
        }
      }
      if IsActive(resolve, hrefs[link], k, pathToRoot, page) {
        MarkActive(link);
      }
    }
  }
}

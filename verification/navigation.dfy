/** The site-wide navigation bar: six fixed links, one link per custom page
    the store lists for the menu, and the admin link last; the scrolled look,
    the mobile menu flag and the highlighted link. */
module Navigation {
  import opened Common
  import opened Seqs
  import opened Entities

  /** A menu entry; `caption` is the link's `label`. */
  datatype Link = Link(href: string, caption: string)

  const DefaultLinks: seq<Link> := [
    Link("/", "Home"),
    Link("/maagap-prayer", "Maagap Prayer"),
    Link("/gallery", "Gallery"),
    Link("/about", "About Us"),
    Link("/history-mkd", "History of MKD"),
    Link("/members", "Members")]

  const AdminLink := Link("/admin", "Admin")

  /** `{ href: `/${page.slug}`, label: page.title }`. */
  function PageLink(page: Entry<CustomPage>): (l: Link)
    ensures |l.href| == 1 + |page.data.slug| && l.href[0] == '/' && l.href[1..] == page.data.slug
    ensures l.caption == page.data.title
  {
    Link("/" + page.data.slug, page.data.title)
  }

  /** `allNavLinks`: the defaults, the custom pages in the order they were
      loaded, then Admin. */
  function NavLinks(pages: seq<Entry<CustomPage>>): (links: seq<Link>)
    ensures |links| == 7 + |pages|
    ensures links[..6] == DefaultLinks
    ensures links[0] == Link("/", "Home") && links[|links| - 1] == AdminLink
    ensures forall i :: 0 <= i < |pages| ==>
              links[6 + i].href == "/" + pages[i].data.slug && links[6 + i].caption == pages[i].data.title
  {
    var custom := Map(PageLink, pages);
    var links := DefaultLinks + custom + [AdminLink];
    assert links[..6] == DefaultLinks;
    assert forall i :: 0 <= i < |pages| ==>
             links[6 + i].href == "/" + pages[i].data.slug && links[6 + i].caption == pages[i].data.title by {
      forall i | 0 <= i < |pages|
        ensures links[6 + i].href == "/" + pages[i].data.slug && links[6 + i].caption == pages[i].data.title
      {
        assert links[6 + i] == custom[i];
      }
    }
    links
  }

  lemma NavLinksShape(pages: seq<Entry<CustomPage>>)
    ensures NavLinks(pages) == DefaultLinks + Map(PageLink, pages) + [AdminLink]
  {
  }

  /** Loading more pages only inserts links before Admin. */
  lemma {:induction false} NavLinksAppend(pages: seq<Entry<CustomPage>>, more: seq<Entry<CustomPage>>)
    ensures NavLinks(pages + more) == NavLinks(pages)[..6 + |pages|] + Map(PageLink, more) + [AdminLink]
  {
    var front, rest := DefaultLinks + Map(PageLink, pages), Map(PageLink, more);
    NavLinksShape(pages);
    NavLinksShape(pages + more);
    MapAppend(PageLink, pages, more);
    SeqAppendAssoc(DefaultLinks, Map(PageLink, pages), rest);
    TakeFront(front, [AdminLink]);
  }

  lemma TakeFront<T>(a: seq<T>, b: seq<T>)
    ensures (a + b)[..|a|] == a
  {
  }

  // ---------------------------------------------------------------------------
  // Distinct links
  // ---------------------------------------------------------------------------

  /** What follows the `/` in each default link's href. */
  const DefaultSlugs: seq<string> := ["", "maagap-prayer", "gallery", "about", "history-mkd", "members"]

  /** The slugs whose link would repeat a fixed link's href. */
  const ReservedSlugs: seq<string> := DefaultSlugs + ["admin"]

  function SlugOf(page: Entry<CustomPage>): string
  {
    page.data.slug
  }

  /** The slug behind every link of the bar, in the bar's order. */
  function MenuSlugs(pages: seq<Entry<CustomPage>>): (slugs: seq<string>)
    ensures |slugs| == 7 + |pages|
    ensures forall k :: 0 <= k < 6 ==> slugs[k] == DefaultSlugs[k]
    ensures forall i :: 0 <= i < |pages| ==> slugs[6 + i] == pages[i].data.slug
    ensures slugs[6 + |pages|] == "admin"
  {
    DefaultSlugs + Map(SlugOf, pages) + ["admin"]
  }

  predicate DistinctHrefs(links: seq<Link>)
  {
    forall i, j :: 0 <= i < j < |links| ==> links[i].href != links[j].href
  }

  predicate DistinctSlugs(pages: seq<Entry<CustomPage>>)
  {
    forall i, j :: 0 <= i < j < |pages| ==> pages[i].data.slug != pages[j].data.slug
  }

  lemma SlashInjective(a: string, b: string)
    ensures "/" + a == "/" + b <==> a == b
  {
    if "/" + a == "/" + b {
      assert a == ("/" + a)[1..];
      assert b == ("/" + b)[1..];
    }
  }

  lemma {:induction false} DefaultHrefs()
    ensures forall k :: 0 <= k < 6 ==> DefaultLinks[k].href == "/" + DefaultSlugs[k]
    ensures AdminLink.href == "/" + "admin"
  {
    assert "/" + "" == "/";
    assert "/" + "maagap-prayer" == "/maagap-prayer";
    assert "/" + "gallery" == "/gallery";
    assert "/" + "about" == "/about";
    assert "/" + "history-mkd" == "/history-mkd";
    assert "/" + "members" == "/members";
    assert "/" + "admin" == "/admin";
  }

  lemma {:induction false} ReservedSlugsDistinct()
    ensures Distinct(ReservedSlugs)
  {
  }

  lemma MenuSlugsShape(pages: seq<Entry<CustomPage>>)
    ensures MenuSlugs(pages) == DefaultSlugs + Map(SlugOf, pages) + ["admin"]
  {
  }

  /** Each link's href is `/` followed by the slug in the same position. */
  lemma {:induction false} HrefsAreSlashSlugs(pages: seq<Entry<CustomPage>>)
    ensures |MenuSlugs(pages)| == |NavLinks(pages)|
    ensures forall p :: 0 <= p < |NavLinks(pages)| ==> NavLinks(pages)[p].href == "/" + MenuSlugs(pages)[p]
  {
    var links, slugs := NavLinks(pages), MenuSlugs(pages);
    DefaultHrefs();
    forall p | 0 <= p < 6 ensures links[p].href == "/" + slugs[p] {
      assert links[p] == links[..6][p] == DefaultLinks[p];
    }
    forall p | 6 <= p < 6 + |pages| ensures links[p].href == "/" + slugs[p] {
      assert links[6 + (p - 6)].href == "/" + pages[p - 6].data.slug;
    }
  }

  lemma {:induction false} DistinctHrefsIffDistinctSlugs(pages: seq<Entry<CustomPage>>)
    ensures DistinctHrefs(NavLinks(pages)) <==> Distinct(MenuSlugs(pages))
  {
    var links, slugs := NavLinks(pages), MenuSlugs(pages);
    HrefsAreSlashSlugs(pages);
    forall i, j | 0 <= i < j < |links|
      ensures links[i].href != links[j].href <==> slugs[i] != slugs[j]
    {
      SlashInjective(slugs[i], slugs[j]);
    }
  }

  lemma {:induction false} CustomSlugs(pages: seq<Entry<CustomPage>>)
    ensures Distinct(Map(SlugOf, pages)) <==> DistinctSlugs(pages)
    ensures (forall i :: 0 <= i < |pages| ==> pages[i].data.slug !in ReservedSlugs) <==>
            (forall x :: x in Map(SlugOf, pages) ==> x !in ReservedSlugs)
  {
    var custom := Map(SlugOf, pages);
    forall x | x in custom ensures exists i :: 0 <= i < |pages| && pages[i].data.slug == x {
      var i :| 0 <= i < |custom| && custom[i] == x;
      assert pages[i].data.slug == x;
    }
    forall i | 0 <= i < |pages| ensures pages[i].data.slug in custom {
      assert custom[i] == pages[i].data.slug;
    }
  }

  /** Every link has its own href exactly when no two custom pages share a
      slug and no slug repeats a fixed link (the empty slug would repeat
      Home). Nothing rejects such slugs when a page is added. */
  lemma {:induction false} NavHrefsDistinctIff(pages: seq<Entry<CustomPage>>)
    ensures DistinctHrefs(NavLinks(pages)) <==>
            DistinctSlugs(pages) && forall i :: 0 <= i < |pages| ==> pages[i].data.slug !in ReservedSlugs
  {
    var custom := Map(SlugOf, pages);
    DistinctHrefsIffDistinctSlugs(pages);
    MenuSlugsShape(pages);
    DistinctAroundReserved(custom);
    CustomSlugs(pages);
  }

  /** The custom slugs placed between the fixed ones repeat nothing exactly
      when they are distinct and none of them is reserved. */
  lemma {:induction false} DistinctAroundReserved(custom: seq<string>)
    ensures Distinct(DefaultSlugs + custom + ["admin"]) <==>
            Distinct(custom) && forall x :: x in custom ==> x !in ReservedSlugs
  {
    ReservedSlugsDistinct();
    DistinctAppend(DefaultSlugs, ["admin"]);
    DistinctAppend(DefaultSlugs, custom);
    DistinctAppend(DefaultSlugs + custom, ["admin"]);
    assert forall x :: x in ReservedSlugs <==> x in DefaultSlugs || x == "admin";
    assert forall x :: x in DefaultSlugs + custom <==> x in DefaultSlugs || x in custom;
  }

  // ---------------------------------------------------------------------------
  // Highlighting
  // ---------------------------------------------------------------------------

  /** `pathname === link.href`, in both the desktop and the mobile list. */
  predicate IsActive(pathname: string, link: Link)
  {
    pathname == link.href
  }

  /** With distinct hrefs at most one link is highlighted. */
  lemma AtMostOneActive(pathname: string, links: seq<Link>, i: int, j: int)
    requires DistinctHrefs(links)
    requires 0 <= i < |links| && 0 <= j < |links|
    requires IsActive(pathname, links[i]) && IsActive(pathname, links[j])
    ensures i == j
  {
  }

  /** Two custom pages with the same slug are highlighted together. */
  lemma {:induction false} SharedSlugHighlightsBoth(pages: seq<Entry<CustomPage>>, i: int, j: int)
    requires 0 <= i < j < |pages| && pages[i].data.slug == pages[j].data.slug
    ensures IsActive("/" + pages[i].data.slug, NavLinks(pages)[6 + i])
    ensures IsActive("/" + pages[i].data.slug, NavLinks(pages)[6 + j])
  {
  }

  // ---------------------------------------------------------------------------
  // The custom-page query
  // ---------------------------------------------------------------------------

  predicate InNav(e: Entry<CustomPage>)
  {
    e.data.showInNav
  }

  predicate SortedByOrder(pages: seq<Entry<CustomPage>>)
  {
    forall i, j :: 0 <= i < j < |pages| ==> pages[i].data.order <= pages[j].data.order
  }

  /** What `where('showInNav', '==', true), orderBy('order', 'asc')` answers
      over the stored pages: exactly the menu pages, ascending by `order`
      (ties in the store's own order). Such an answer holds only stored
      menu pages and is no longer than the store. */
  function MenuQueryAnswer(stored: seq<Entry<CustomPage>>, answer: seq<Entry<CustomPage>>): (b: bool)
    ensures b ==> forall e :: e in answer ==> e in stored && e.data.showInNav
    ensures b ==> |answer| <= |stored|
  {
    multiset(answer) == multiset(Filter(InNav, stored)) &&
    (MenuQueryOnlyMenuPages(stored, answer); SortedByOrder(answer))
  }

  /** Any rearrangement of the menu pages holds only stored pages with
      `showInNav` set, and no more of them than the store has. */
  lemma {:induction false} MenuQueryOnlyMenuPages(stored: seq<Entry<CustomPage>>, answer: seq<Entry<CustomPage>>)
    requires multiset(answer) == multiset(Filter(InNav, stored))
    ensures forall e :: e in answer ==> e in stored && e.data.showInNav
    ensures |answer| <= |stored|
  {
    forall e | e in answer
      ensures e in stored && e.data.showInNav
    {
      assert e in multiset(answer);
      assert e in Filter(InNav, stored);
    }
    assert |answer| == |multiset(answer)| == |Filter(InNav, stored)|;
  }


  /** Places `e` before the first page with a larger or equal `order`. */
  function InsertByOrder(e: Entry<CustomPage>, pages: seq<Entry<CustomPage>>): (r: seq<Entry<CustomPage>>)
    ensures multiset(r) == multiset(pages) + multiset{e}
    ensures |r| == |pages| + 1
    ensures r[0] == e || (pages != [] && r[0] == pages[0])
  {
    if pages == [] then [e]
    else if e.data.order <= pages[0].data.order then [e] + pages
    else
      assert pages == [pages[0]] + pages[1..];
      [pages[0]] + InsertByOrder(e, pages[1..])
  }

  lemma {:induction false} InsertByOrderSorted(e: Entry<CustomPage>, pages: seq<Entry<CustomPage>>)
    requires SortedByOrder(pages)
    ensures SortedByOrder(InsertByOrder(e, pages))
    decreases |pages|
  {
    if pages != [] && e.data.order > pages[0].data.order {
      InsertByOrderSorted(e, pages[1..]);
    }
  }

  /** A reference answer: the menu pages sorted by `order`, stably. */
  function SortByOrder(pages: seq<Entry<CustomPage>>): (r: seq<Entry<CustomPage>>)
    ensures multiset(r) == multiset(pages)
    ensures SortedByOrder(r)
  {
    if pages == [] then []
    else
      assert pages == [pages[0]] + pages[1..];
      InsertByOrderSorted(pages[0], SortByOrder(pages[1..]));
      InsertByOrder(pages[0], SortByOrder(pages[1..]))
  }

  /** The query always has an answer: the sorted menu pages. */
  lemma {:induction false} MenuQueryAnswerable(stored: seq<Entry<CustomPage>>)
    ensures MenuQueryAnswer(stored, SortByOrder(Filter(InNav, stored)))
  {
  }

  // ---------------------------------------------------------------------------
  // The component's state
  // ---------------------------------------------------------------------------

  datatype NavState = NavState(isScrolled: bool, menuOpen: bool, customPages: seq<Entry<CustomPage>>)

  const InitialNav := NavState(false, false, [])

  /** The scroll listener: scrolled exactly when past 20 pixels. */
  function OnScroll(s: NavState, scrollY: real): (t: NavState)
    ensures t.isScrolled <==> scrollY > 20.0
    ensures t.(isScrolled := s.isScrolled) == s
  {
    s.(isScrolled := scrollY > 20.0)
  }

  /** The menu button. */
  function ToggleMenu(s: NavState): (t: NavState)
    ensures t.menuOpen != s.menuOpen
    ensures t.(menuOpen := s.menuOpen) == s
  {
    s.(menuOpen := !s.menuOpen)
  }

  /** A click on a link of the mobile menu. */
  function CloseMenu(s: NavState): (t: NavState)
    ensures !t.menuOpen
    ensures t.(menuOpen := s.menuOpen) == s
  {
    s.(menuOpen := false)
  }

  lemma ToggleTwiceRestoresMenu(s: NavState)
    ensures ToggleMenu(ToggleMenu(s)) == s
  {
  }

  /** `loadCustomPages`: the answer replaces the list; a failed query keeps
      the previous one. */
  function LoadCustomPages(s: NavState, answer: Option<seq<Entry<CustomPage>>>): (t: NavState)
    ensures answer.None? ==> t == s
    ensures answer.Some? ==> t == s.(customPages := answer.value)
  {
    s.(customPages := Reloaded(s.customPages, answer))
  }

  /** When the first load fails the bar shows the six defaults and Admin. */
  lemma {:induction false} FailedFirstLoadShowsFixedLinks()
    ensures NavLinks(LoadCustomPages(InitialNav, None).customPages) == DefaultLinks + [AdminLink]
  {
    var links := NavLinks(LoadCustomPages(InitialNav, None).customPages);
    assert |links| == 7 && links[..6] == DefaultLinks && links[6] == AdminLink;
  }
}

/** The small state rules of js/main.js, over an abstract document: the
    portfolio category filter, the mobile menu's three class flags, the
    active navigation link chosen from the scroll position, the star
    string of a review, and the two scroll thresholds. Elements are
    records, and class membership is a boolean. */
module Site {
  import opened Wrappers
  import JsText

  // ---------------------------------------------------------------------
  // Portfolio filter
  // ---------------------------------------------------------------------

  datatype PortfolioItem = PortfolioItem(id: nat, title: string, category: string, image: string, description: string)

  /** The `portfolioItems` of `initPortfolio`. */
  const PortfolioItems: seq<PortfolioItem> := [
    PortfolioItem(1, "Konstrukcja stalowa hali przemysłowej", "konstrukcje", "images/gallery/konstrukcja-placeholder.svg",
                  "Kompletna konstrukcja stalowa hali o powierzchni 1200m²"),
    PortfolioItem(2, "Balustrada ze stali nierdzewnej", "balustrady", "images/gallery/balustrada-placeholder.svg",
                  "Elegancka balustrada wewnętrzna ze stali nierdzewnej"),
    PortfolioItem(3, "Brama wjazdowa automatyczna", "bramy", "images/gallery/brama-placeholder.svg",
                  "Brama przesuwna z automatyką i kontrolą dostępu"),
    PortfolioItem(4, "Profesjonalne urządzenia spawalnicze", "przemysl", "images/gallery/welding-equipment.png",
                  "Nowoczesne maszyny spawalnicze do precyzyjnych prac"),
    PortfolioItem(5, "Konstrukcja dachu stalowego", "konstrukcje", "images/gallery/konstrukcja-placeholder.svg",
                  "Konstrukcja nośna dachu dla centrum logistycznego"),
    PortfolioItem(6, "Balustrada zewnętrzna", "balustrady", "images/gallery/balustrada-placeholder.svg",
                  "Balustrada tarasu z elementami dekoracyjnymi"),
    PortfolioItem(7, "Brama garażowa dwuskrzydłowa", "bramy", "images/gallery/brama-placeholder.svg",
                  "Brama garażowa z napędem elektrycznym"),
    PortfolioItem(8, "Zbiornik przemysłowy", "przemysl", "images/gallery/przemysl-placeholder.svg",
                  "Zbiornik na chemikalia o pojemności 5000L")
  ]

  /** `items.filter(item => item.category === category)`: the items of that
      category, and only those. */
  function OfCategory(items: seq<PortfolioItem>, category: string): (r: seq<PortfolioItem>)
    ensures |r| <= |items|
    ensures forall k :: 0 <= k < |r| ==> r[k].category == category && r[k] in items
    ensures forall k :: 0 <= k < |items| && items[k].category == category ==> items[k] in r
  {
    if items == [] then []
    else if items[0].category == category then [items[0]] + OfCategory(items[1..], category)
    else OfCategory(items[1..], category)
  }

  /** Filtering distributes over concatenation: the kept items stay in
      their original order. */
  lemma {:induction false} OfCategoryAppend(a: seq<PortfolioItem>, b: seq<PortfolioItem>, category: string)
    ensures OfCategory(a + b, category) == OfCategory(a, category) + OfCategory(b, category)
  {
    if a == [] {
      assert a + b == b;
    } else {
      assert (a + b)[0] == a[0] && (a + b)[1..] == a[1..] + b;
      OfCategoryAppend(a[1..], b, category);
    }
  }

  /** The items the filter buttons' click handler renders for `filter`:
      every item for `all`, otherwise the items of that category. */
  function FilterPortfolio(items: seq<PortfolioItem>, filter: string): (r: seq<PortfolioItem>)
    ensures filter == "all" ==> r == items
    ensures filter != "all" ==> forall x :: x in r <==> x in items && x.category == filter
  {
    if filter == "all" then items else OfCategory(items, filter)
  }

  /** `OfCategory` of a single item. */
  lemma OfCategoryOne(x: PortfolioItem, category: string)
    ensures OfCategory([x], category) == if x.category == category then [x] else []
  {
    assert [x][1..] == [];
  }

  /** Items none of which has category `c` filter down to nothing. */
  lemma {:induction false} NoneOfCategory(items: seq<PortfolioItem>, c: string)
    requires forall k :: 0 <= k < |items| ==> items[k].category != c
    ensures OfCategory(items, c) == []
  {
    if items != [] {
      NoneOfCategory(items[1..], c);
    }
  }

  /** Eight items of which exactly the first and the fifth have category
      `c` filter down to those two, in that order. */
  lemma FirstAndFifthOfEight(items: seq<PortfolioItem>, c: string)
    requires |items| == 8 && items[0].category == c && items[4].category == c
    requires OfCategory(items[1..4], c) == [] && OfCategory(items[5..], c) == []
    ensures OfCategory(items, c) == [items[0], items[4]]
  {
    var first, gap, fifth, tail := items[..1], items[1..4], items[4..5], items[5..];
    assert items == first + (gap + (fifth + tail));
    OfCategoryOne(items[0], c);
    OfCategoryOne(items[4], c);
    assert first == [items[0]] && fifth == [items[4]];
    OfCategoryAppend(fifth, tail, c);
    OfCategoryAppend(gap, fifth + tail, c);
    OfCategoryAppend(first, gap + (fifth + tail), c);
  }

  /** On the site's own items, the `konstrukcje` button shows items 1 and
      5, in page order. */
  lemma ConstructionFilterExample()
    ensures FilterPortfolio(PortfolioItems, "konstrukcje") == [PortfolioItems[0], PortfolioItems[4]]
  {
    var c := "konstrukcje";
    NoneOfCategory(PortfolioItems[1..4], c);
    NoneOfCategory(PortfolioItems[5..], c);
    FirstAndFifthOfEight(PortfolioItems, c);
  }

  /** `all` shows all eight items, and a category no item has shows none. */
  lemma AllAndUnknownFilterExamples()
    ensures FilterPortfolio(PortfolioItems, "all") == PortfolioItems
    ensures FilterPortfolio(PortfolioItems, "spawanie") == []
  {
  }

  /** The portfolio section: which filter button carries `active` and which
      items the grid shows. */
  class Portfolio {
    const items: seq<PortfolioItem>
    const filters: seq<string>
    var buttonActive: seq<bool>
    var shown: seq<PortfolioItem>

    /** The initial render shows every item. Which button starts out
        `active` is up to the page's markup, so it is a parameter. */
    constructor (items: seq<PortfolioItem>, filters: seq<string>, initiallyActive: seq<bool>)
      requires |initiallyActive| == |filters|
      ensures this.items == items && this.filters == filters
      ensures shown == items && buttonActive == initiallyActive
    {
      this.items := items;
      this.filters := filters;
      buttonActive := initiallyActive;
      shown := items;
    }

    /** A click on filter button `i`: only that button is active, and the
      grid is re-rendered from the filtered items. */
    method ClickFilter(i: nat)
      requires i < |filters|
      modifies this
      ensures |buttonActive| == |filters|
      ensures forall j :: 0 <= j < |filters| ==> buttonActive[j] == (j == i)
      ensures shown == FilterPortfolio(items, filters[i])
    {
      buttonActive := seq(|filters|, j => j == i);
      shown := FilterPortfolio(items, filters[i]);
    }
  }

  // ---------------------------------------------------------------------
  // Mobile menu
  // ---------------------------------------------------------------------

  /** Where a click lands, as the menu handlers see it. */
  datatype ClickTarget = Hamburger | NavLink | InsideMenu | Outside

  /** The three classes the menu handlers switch: `active` on the hamburger,
      `active` on the menu, `nav-open` on the body. */
  class MobileMenu {
    var hamburgerActive: bool
    var menuActive: bool
    var navOpen: bool

    /** The three flags agree. */
    predicate InLockStep()
      reads this
    {
      hamburgerActive == menuActive && menuActive == navOpen
    }

    /** The classes the page's markup starts with; the menu is in lock
        step exactly when the three agree. */
    constructor (hamburgerActive: bool, menuActive: bool, navOpen: bool)
      ensures this.hamburgerActive == hamburgerActive && this.menuActive == menuActive && this.navOpen == navOpen
      ensures InLockStep() <==> hamburgerActive == menuActive == navOpen
    {
      this.hamburgerActive, this.menuActive, this.navOpen := hamburgerActive, menuActive, navOpen;
    }

    /** The hamburger's click handler: toggle all three classes. */
    method ToggleFromHamburger()
      modifies this
      ensures hamburgerActive == !old(hamburgerActive) && menuActive == !old(menuActive) && navOpen == !old(navOpen)
      ensures old(InLockStep()) ==> InLockStep()
    {
      hamburgerActive := !hamburgerActive;
      menuActive := !menuActive;
      navOpen := !navOpen;
    }

    /** The nav links' click handler, and the body of the outside-click and
      Escape handlers: remove all three classes. */
    method Close()
      modifies this
      ensures !hamburgerActive && !menuActive && !navOpen
      ensures InLockStep()
    {
      hamburgerActive := false;
      menuActive := false;
      navOpen := false;
    }

    /** The document's click handler: a click outside both the hamburger and
      the menu closes the menu. */
    method OnDocumentClick(insideHamburgerOrMenu: bool)
      modifies this
      ensures insideHamburgerOrMenu ==> unchanged(this)
      ensures !insideHamburgerOrMenu ==> !hamburgerActive && !menuActive && !navOpen
      ensures old(InLockStep()) ==> InLockStep()
    {
      if !insideHamburgerOrMenu {
        Close();
      }
    }

    /** The document's keydown handler: Escape closes an open menu. */
    method OnKeyDown(key: string)
      modifies this
      ensures key == "Escape" && old(menuActive) ==> !hamburgerActive && !menuActive && !navOpen
      ensures !(key == "Escape" && old(menuActive)) ==> unchanged(this)
      ensures old(InLockStep()) ==> InLockStep() && !(key == "Escape" && menuActive)
    {
      if key == "Escape" && menuActive {
        Close();
      }
    }

    /** One click: the target's own handler runs, then the event reaches the
      document's handler. A hamburger click toggles the menu, a click on a
      link or outside closes it, any other click inside the menu leaves it. */
    method Click(target: ClickTarget)
      modifies this
      ensures old(InLockStep()) ==> InLockStep()
      ensures target == Hamburger ==>
        hamburgerActive == !old(hamburgerActive) && menuActive == !old(menuActive) && navOpen == !old(navOpen)
      ensures target == NavLink || target == Outside ==> !hamburgerActive && !menuActive && !navOpen
      ensures target == InsideMenu ==> unchanged(this)
    {
      match target
      case Hamburger =>
        ToggleFromHamburger();
        OnDocumentClick(true);
      case NavLink =>
        Close();
        OnDocumentClick(true);
      case InsideMenu =>
        OnDocumentClick(true);
      case Outside =>
        OnDocumentClick(false);
    }
  }

  // ---------------------------------------------------------------------
  // Active navigation link
  // ---------------------------------------------------------------------

  /** A `section[id]` element, with its layout box. */
  datatype Section = Section(id: string, offsetTop: real, offsetHeight: real)

  /** The allowance for the fixed header when deciding which section is in
      view. */
  const HeaderAllowance: real := 100.0

  /** `scrollY` lies in the section's band, shifted up by the allowance. */
  predicate InView(s: Section, scrollY: real) {
    s.offsetTop - HeaderAllowance <= scrollY < s.offsetTop - HeaderAllowance + s.offsetHeight
  }

  /** The id `highlightActiveNavigation` settles on: the last section in
      document order that is in view, or the empty string. */
  function ActiveSection(sections: seq<Section>, scrollY: real): string {
    if sections == [] then ""
    else if InView(sections[|sections| - 1], scrollY) then sections[|sections| - 1].id
    else ActiveSection(sections[..|sections| - 1], scrollY)
  }

  /** Section `k` is in view and no later section is. */
  predicate LastInView(sections: seq<Section>, k: nat, scrollY: real)
    requires k < |sections|
  {
    InView(sections[k], scrollY) && forall j :: k < j < |sections| ==> !InView(sections[j], scrollY)
  }

  /** `ActiveSection` is the id of the last section in view, or empty when
      none is in view. */
  lemma {:induction false} ActiveSectionIsLastInView(sections: seq<Section>, scrollY: real)
    ensures (forall k :: 0 <= k < |sections| ==> !InView(sections[k], scrollY)) ==> ActiveSection(sections, scrollY) == ""
    ensures forall k :: 0 <= k < |sections| && LastInView(sections, k, scrollY) ==> ActiveSection(sections, scrollY) == sections[k].id
  {
    if sections != [] {
      var n := |sections| - 1;
      var prefix := sections[..n];
      ActiveSectionIsLastInView(prefix, scrollY);
      assert forall k :: 0 <= k < n ==> prefix[k] == sections[k];
      forall k | 0 <= k < |sections| && LastInView(sections, k, scrollY)
        ensures ActiveSection(sections, scrollY) == sections[k].id
      {
        if k < n {
          assert !InView(sections[n], scrollY);
          assert LastInView(prefix, k, scrollY);
        }
      }
    }
  }

  /** A `.nav-link` anchor, by its `href`. */
  datatype Link = Link(href: string)

  /** `highlightActiveNavigation`: find the last section in view, then mark
      exactly the links whose `href` is `#` followed by its id. */
  method HighlightActiveNavigation(sections: seq<Section>, links: seq<Link>, scrollY: real)
    returns (current: string, active: seq<bool>)
    ensures current == ActiveSection(sections, scrollY)
    ensures |active| == |links|
    ensures forall j :: 0 <= j < |links| ==> (active[j] <==> links[j].href == "#" + current)
  {
    current := "";
    for i := 0 to |sections|
      invariant current == ActiveSection(sections[..i], scrollY)
    {
      assert sections[..i + 1][..i] == sections[..i];
      var sectionTop := sections[i].offsetTop - HeaderAllowance;
      if sectionTop <= scrollY < sectionTop + sections[i].offsetHeight {
        current := sections[i].id;
      }
    }
    assert sections[..|sections|] == sections;
    active := [];
    for j := 0 to |links|
      invariant |active| == j
      invariant forall m :: 0 <= m < j ==> (active[m] <==> links[m].href == "#" + current)
    {
      active := active + [links[j].href == "#" + current];
    }
  }

  /** When no section is in view, a link whose `href` is a bare `#` is the
      one marked active. */
  lemma NoSectionMarksBareHashLink(sections: seq<Section>, scrollY: real)
    requires forall k :: 0 <= k < |sections| ==> !InView(sections[k], scrollY)
    ensures "#" + ActiveSection(sections, scrollY) == "#"
  {
    ActiveSectionIsLastInView(sections, scrollY);
  }

  // ---------------------------------------------------------------------
  // Review stars
  // ---------------------------------------------------------------------

  /** `'★'.repeat(rating) + '☆'.repeat(5 - rating)`; `repeat` throws a
      RangeError on a negative count, so a rating outside 0..5 throws. */
  function RatingStars(rating: int): (r: Result<string, string>)
    ensures r.Success? <==> 0 <= rating <= 5
    ensures r.Failure? ==> r.error == "RangeError"
    ensures r.Success? ==> |r.value| == 5
    ensures r.Success? ==> forall k :: 0 <= k < rating ==> r.value[k] == '★'
    ensures r.Success? ==> forall k :: rating <= k < 5 ==> r.value[k] == '☆'
  {
    if rating < 0 || 5 - rating < 0 then Failure("RangeError")
    else Success(JsText.Repeat('★', rating) + JsText.Repeat('☆', 5 - rating))
  }

  // ---------------------------------------------------------------------
  // Scroll thresholds
  // ---------------------------------------------------------------------

  const HeaderThreshold: real := 50.0
  const BackToTopThreshold: real := 300.0

  /** The two classes the scroll listeners switch: `scrolled` on the header
      and `visible` on the back-to-top button. */
  class ScrollEffects {
    var headerScrolled: bool
    var backToTopVisible: bool

    /** The classes the page's markup starts with, before any scroll. */
    constructor (headerScrolled: bool, backToTopVisible: bool)
      ensures this.headerScrolled == headerScrolled && this.backToTopVisible == backToTopVisible
    {
      this.headerScrolled, this.backToTopVisible := headerScrolled, backToTopVisible;
    }

    /** The header's scroll listener. */
    method UpdateHeader(scrollY: real)
      modifies this
      ensures headerScrolled <==> scrollY > HeaderThreshold
      ensures backToTopVisible == old(backToTopVisible)
    {
      if scrollY > HeaderThreshold {
        headerScrolled := true;
      } else {
        headerScrolled := false;
      }
    }

    /** The back-to-top button's scroll listener. */
    method UpdateBackToTop(scrollY: real)
      modifies this
      ensures backToTopVisible <==> scrollY > BackToTopThreshold
      ensures headerScrolled == old(headerScrolled)
    {
      if scrollY > BackToTopThreshold {
        backToTopVisible := true;
      } else {
        backToTopVisible := false;
      }
    }

    /** Both listeners on one scroll event. The classes depend on the
      current position only, and the button never shows under a header
      without `scrolled`. */
    method OnScroll(scrollY: real)
      modifies this
      ensures headerScrolled <==> scrollY > HeaderThreshold
      ensures backToTopVisible <==> scrollY > BackToTopThreshold
      ensures backToTopVisible ==> headerScrolled
    {
      UpdateHeader(scrollY);
      UpdateBackToTop(scrollY);
    }
  }
}

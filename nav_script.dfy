/** The landing page script: the sticky navbar, the mobile menu, the
    highlighting of the link for the section in view, and the anchor
    scrolling. */
module NavScript {
  import opened TextUtil

  /** A `section[id]`: its id and its `offsetTop`. */
  datatype Section = Section(id: string, offsetTop: int)

  const SCROLLED_AFTER := 50
  const SECTION_LEAD := 200
  const HEADER_OFFSET := 80
  const DESKTOP_WIDTH := 992

  /** A section counts as reached once the page is scrolled to within 200
      pixels of its top. */
  predicate Reached(s: Section, scrollY: int) {
    scrollY >= s.offsetTop - SECTION_LEAD
  }

  /** The index of the last reached section in document order, or -1 when
      none is reached. */
  function CurrentIndex(sections: seq<Section>, scrollY: int): (k: int)
    ensures -1 <= k < |sections|
    ensures k >= 0 ==> Reached(sections[k], scrollY)
    ensures forall j :: k < j < |sections| ==> !Reached(sections[j], scrollY)
    decreases |sections|
  {
    if sections == [] then -1
    else if Reached(sections[|sections| - 1], scrollY) then |sections| - 1
    else CurrentIndex(sections[..|sections| - 1], scrollY)
  }

  /** The id the highlighting looks for: the last reached section's, or the
      empty string. */
  function Current(sections: seq<Section>, scrollY: int): (id: string) {
    var k := CurrentIndex(sections, scrollY);
    if k >= 0 then sections[k].id else ""
  }

  /** Scrolling further down never moves the highlight to an earlier
      section, whatever the order of the sections' tops. */
  lemma {:induction false} CurrentIndexMonotone(sections: seq<Section>, y1: int, y2: int)
    requires y1 <= y2
    ensures CurrentIndex(sections, y1) <= CurrentIndex(sections, y2)
  {
    var k1, k2 := CurrentIndex(sections, y1), CurrentIndex(sections, y2);
    if k1 >= 0 {
      assert Reached(sections[k1], y2);
    }
  }

  /** With the sections' tops at least 200 pixels down the page, nothing is
      highlighted at the very top. */
  lemma NothingAtTop(sections: seq<Section>)
    requires forall i :: 0 <= i < |sections| ==> sections[i].offsetTop > SECTION_LEAD
    ensures Current(sections, 0) == ""
  {
  }

  /** Where an anchor click scrolls: 80 pixels above the target, nowhere
      when no element matches. */
  function AnchorTop(target: Option<Section>): (top: Option<int>)
    ensures top.Some? <==> target.Some?
    ensures top.Some? ==> top.value + HEADER_OFFSET == target.value.offsetTop
  {
    if target.Some? then Some(target.value.offsetTop - HEADER_OFFSET) else None
  }

  /** Each nav link's `href` (None without one) is active iff it points at
      `current`. */
  function Highlighted(hrefs: seq<Option<string>>, current: string): (active: seq<bool>)
    ensures |active| == |hrefs|
    ensures forall i :: 0 <= i < |hrefs| ==> (active[i] <==> hrefs[i] == Some("#" + current))
  {
    seq(|hrefs|, i requires 0 <= i < |hrefs| => hrefs[i] == Some("#" + current))
  }

  /** With distinct links no two are highlighted at once. */
  lemma AtMostOneHighlighted(hrefs: seq<Option<string>>, current: string, i: int, j: int)
    requires forall a, b :: 0 <= a < b < |hrefs| ==> hrefs[a] != hrefs[b]
    requires 0 <= i < |hrefs| && 0 <= j < |hrefs| && i != j
    ensures !(Highlighted(hrefs, current)[i] && Highlighted(hrefs, current)[j])
  {
    if i < j {
      assert hrefs[i] != hrefs[j];
    } else {
      assert hrefs[j] != hrefs[i];
    }
  }

  /** The navbar, the collapsible menu and its overlay, and the links. */
  class NavPage {
    /** The navbar's `scrolled` class. */
    var scrolled: bool
    /** `show` on the collapse and on the overlay, and the body's
        `overflow: hidden`. */
    var menuShown: bool
    var overlayShown: bool
    var overflowHidden: bool
    /** The toggler's `aria-expanded` attribute. */
    var expanded: string
    /** A ten-millisecond opening is waiting to run. */
    var openPending: bool
    var sections: seq<Section>
    var hrefs: seq<Option<string>>
    var active: seq<bool>

    predicate Valid()
      reads this
    {
      |active| == |hrefs|
    }

    /** The menu, overlay and body all closed. */
    predicate Closed()
      reads this
    {
      !menuShown && !overlayShown && !overflowHidden
    }

    constructor (ss: seq<Section>, hs: seq<Option<string>>)
      ensures Valid() && Closed() && sections == ss && hrefs == hs
      ensures !scrolled && expanded == "false" && !openPending
      ensures forall i :: 0 <= i < |hs| ==> !active[i]
    {
      scrolled, menuShown, overlayShown, overflowHidden := false, false, false, false;
      expanded, openPending := "false", false;
      sections, hrefs := ss, hs;
      active := seq(|hs|, _ => false);
    }

    /** The sticky-navbar scroll handler. */
    method StickyScroll(scrollY: int)
      modifies this
      ensures scrolled <==> scrollY > SCROLLED_AFTER
      ensures menuShown == old(menuShown) && overlayShown == old(overlayShown)
      ensures overflowHidden == old(overflowHidden) && expanded == old(expanded)
      ensures openPending == old(openPending) && sections == old(sections)
      ensures hrefs == old(hrefs) && active == old(active)
    {
      if scrollY > SCROLLED_AFTER {
        scrolled := true;
      } else {
        scrolled := false;
      }
    }

    /** Remove `show` from the menu and overlay and release the body. */
    method CloseMenu()
      modifies this
      ensures Closed()
      ensures scrolled == old(scrolled) && expanded == old(expanded) && openPending == old(openPending)
      ensures sections == old(sections) && hrefs == old(hrefs) && active == old(active)
    {
      menuShown, overlayShown, overflowHidden := false, false, false;
    }

    /** The toggler click: a collapsed menu is opened after ten
        milliseconds, an expanded one is closed at once. The attribute
        itself is flipped by the menu component, not here. */
    method TogglerClick()
      modifies this
      ensures old(expanded) != "true" ==>
        openPending && menuShown == old(menuShown) && overlayShown == old(overlayShown) &&
        overflowHidden == old(overflowHidden)
      ensures old(expanded) == "true" ==> Closed() && openPending == old(openPending)
      ensures scrolled == old(scrolled) && expanded == old(expanded)
      ensures sections == old(sections) && hrefs == old(hrefs) && active == old(active)
    {
      var isExpanded := expanded == "true";
      if !isExpanded {
        openPending := true;
      } else {
        CloseMenu();
      }
    }

    /** The delayed opening runs. */
    method OpenTimerFires()
      requires openPending
      modifies this
      ensures menuShown && overlayShown && overflowHidden && !openPending
      ensures scrolled == old(scrolled) && expanded == old(expanded)
      ensures sections == old(sections) && hrefs == old(hrefs) && active == old(active)
    {
      menuShown, overlayShown, overflowHidden := true, true, true;
      openPending := false;
    }

    /** A click on the overlay closes the menu and collapses the toggler. */
    method OverlayClick()
      modifies this
      ensures Closed() && expanded == "false"
      ensures scrolled == old(scrolled) && openPending == old(openPending)
      ensures sections == old(sections) && hrefs == old(hrefs) && active == old(active)
    {
      CloseMenu();
      expanded := "false";
    }

    /** A nav-link click closes the menu like the overlay, but only on a
        window narrower than 992 pixels. */
    method NavLinkClick(innerWidth: int)
      modifies this
      ensures innerWidth < DESKTOP_WIDTH ==> Closed() && expanded == "false"
      ensures innerWidth >= DESKTOP_WIDTH ==>
        menuShown == old(menuShown) && overlayShown == old(overlayShown) &&
        overflowHidden == old(overflowHidden) && expanded == old(expanded)
      ensures scrolled == old(scrolled) && openPending == old(openPending)
      ensures sections == old(sections) && hrefs == old(hrefs) && active == old(active)
    {
      if innerWidth < DESKTOP_WIDTH {
        OverlayClick();
      }
    }

    /** The highlighting scroll handler: find the current section, then
        mark exactly the links pointing at it. */
    method HighlightScroll(scrollY: int) returns (current: string)
      requires Valid()
      modifies this
      ensures Valid() && current == Current(sections, scrollY)
      ensures active == Highlighted(hrefs, current)
      ensures scrolled == old(scrolled) && menuShown == old(menuShown)
      ensures overlayShown == old(overlayShown) && overflowHidden == old(overflowHidden)
      ensures expanded == old(expanded) && openPending == old(openPending)
      ensures sections == old(sections) && hrefs == old(hrefs)
    {
      current := "";
      var i := 0;
      while i < |sections|
        invariant 0 <= i <= |sections|
        invariant current == Current(sections[..i], scrollY)
      {
        assert sections[..i + 1][..i] == sections[..i];
        if Reached(sections[i], scrollY) {
          current := sections[i].id;
        }
        i := i + 1;
      }
      assert sections[..i] == sections;
      i := 0;
      while i < |hrefs|
        invariant 0 <= i <= |hrefs| && Valid()
        invariant sections == old(sections) && hrefs == old(hrefs)
        invariant scrolled == old(scrolled) && menuShown == old(menuShown)
        invariant overlayShown == old(overlayShown) && overflowHidden == old(overflowHidden)
        invariant expanded == old(expanded) && openPending == old(openPending)
        invariant forall j :: 0 <= j < i ==> (active[j] <==> hrefs[j] == Some("#" + current))
      {
        active := active[i := false];
        if hrefs[i] == Some("#" + current) {
          active := active[i := true];
        }
        i := i + 1;
      }
    }
  }
}

/** The always-loaded page core: the memoising element lookup, the theme
    toggle, the smooth-scroll target for in-page anchors, and the cookie
    banner. */
module Core {
  import opened TextUtil

  /** A DOM element as far as these scripts look at it. */
  datatype Element = Element(id: nat, offsetTop: int, offsetHeight: int)

  /** One `document.querySelector` call made by the lookup, with its
      answer. */
  datatype Query = Query(selector: string, result: Option<Element>)

  // ---------------------------------------------------------------------
  // The element cache as a function of the queries made

  /** The cache a sequence of lookups' queries leaves: a selector enters
      with its first non-null answer and is never replaced. */
  function Replay(log: seq<Query>): (m: map<string, Element>)
  {
    if log == [] then map[]
    else
      var prev := Replay(log[..|log| - 1]);
      var q := log[|log| - 1];
      if q.result.Some? && q.selector !in prev then prev[q.selector := q.result.value] else prev
  }

  /** Entries are never removed or replaced, whatever is queried later. */
  lemma {:induction false} ReplayKeepsEntries(a: seq<Query>, b: seq<Query>)
    ensures forall s :: s in Replay(a) ==> s in Replay(a + b) && Replay(a + b)[s] == Replay(a)[s]
    decreases |b|
  {
    if b == [] {
      assert a + b == a;
    } else {
      var b' := b[..|b| - 1];
      ReplayKeepsEntries(a, b');
      assert (a + b)[..|a + b| - 1] == a + b';
    }
  }

  /** Every successful query's selector is cached. */
  lemma {:induction false} ReplayHoldsFound(log: seq<Query>, i: int)
    requires 0 <= i < |log| && log[i].result.Some?
    ensures log[i].selector in Replay(log)
    decreases |log|
  {
    var init := log[..|log| - 1];
    if i < |log| - 1 {
      ReplayHoldsFound(init, i);
    }
  }

  /** A selector is never queried again after a query for it succeeded. */
  ghost predicate NoRequery(log: seq<Query>) {
    forall i, j :: 0 <= i < j < |log| && log[i].result.Some? ==> log[j].selector != log[i].selector
  }

  // ---------------------------------------------------------------------
  // Theme and scrolling

  /** `savedTheme === 'dark' || (!savedTheme && systemPrefersDark)`. */
  function InitialDark(saved: Option<string>, systemDark: bool): (dark: bool)
    ensures saved == Some("dark") ==> dark
    ensures saved.Some? && saved.value != "" && saved.value != "dark" ==> !dark
    ensures saved.None? || saved.value == "" ==> dark == systemDark
  {
    saved == Some("dark") || ((saved.None? || saved.value == "") && systemDark)
  }

  /** `classList.replace(a, b)`: nothing happens when `a` is absent. */
  function Replace(classes: set<string>, a: string, b: string): (r: set<string>)
    ensures a in classes ==> b in r && (a != b ==> a !in r)
    ensures forall c :: c != a && c != b ==> (c in r <==> c in classes)
    ensures a !in classes ==> r == classes
  {
    if a in classes then classes - {a} + {b} else classes
  }

  /** Where an anchor click scrolls: nowhere for a bare `#` or a missing
      target; otherwise 20 pixels above the target's top less the header's
      height (0 without a nav). */
  function ScrollTarget(href: string, target: Option<Element>, nav: Option<Element>): (top: Option<int>)
    ensures top.Some? <==> href != "#" && target.Some?
    ensures top.Some? && nav.None? ==> top.value == target.value.offsetTop - 20
    ensures top.Some? && nav.Some? ==> top.value + nav.value.offsetHeight + 20 == target.value.offsetTop
  {
    if href == "#" || target.None? then None
    else
      var headerHeight := if nav.Some? then nav.value.offsetHeight else 0;
      Some(target.value.offsetTop - headerHeight - 20)
  }

  /** What `getElement` answers given the cache and the document. */
  function Lookup(elements: map<string, Element>, selector: string, query: string -> Option<Element>): Option<Element> {
    if selector in elements then Some(elements[selector]) else query(selector)
  }

  /** What the core script shows: dark mode on the body, the toggle icon's
      classes, the listeners it attached, and the cookie banner. */
  datatype View = View(bodyDark: bool, iconClasses: set<string>, themeListening: bool,
                       consentListening: bool, bannerShowScheduled: bool, bannerShown: bool,
                       bannerHidden: bool)

  /** The cache after one `getElement` call. */
  function CacheAfter(elements: map<string, Element>, selector: string, query: string -> Option<Element>): map<string, Element> {
    if selector in elements then elements
    else match query(selector)
      case Some(e) => elements[selector := e]
      case None => elements
  }

  /** The query log after one `getElement` call: a query is logged only on
      a cache miss. */
  ghost function LogAfter(elements: map<string, Element>, log: seq<Query>, selector: string,
                          query: string -> Option<Element>): seq<Query> {
    if selector in elements then log else log + [Query(selector, query(selector))]
  }

  /** The page state the core script touches. */
  class Page {
    /** `Core.elements`. */
    var elements: map<string, Element>
    /** Every `querySelector` call the lookup made, in order. */
    ghost var log: seq<Query>
    var store: map<string, string>
    var view: View

    ghost predicate Valid()
      reads this
    {
      elements == Replay(log) && NoRequery(log)
    }

    constructor (store0: map<string, string>, icon: set<string>)
      ensures Valid() && elements == map[] && log == []
      ensures store == store0 && view == View(false, icon, false, false, false, false, false)
    {
      elements, log := map[], [];
      store, view := store0, View(false, icon, false, false, false, false, false);
    }

    /** `Core.getElement`: a cached selector is answered from the cache
        without a query; otherwise the document is queried and a non-null
        answer cached. */
    method GetElement(selector: string, query: string -> Option<Element>) returns (e: Option<Element>)
      requires Valid()
      modifies this
      ensures Valid() && store == old(store) && view == old(view)
      ensures e == Lookup(old(elements), selector, query)
      ensures selector in old(elements) ==> elements == old(elements) && log == old(log)
      ensures selector !in old(elements) ==>
        log == old(log) + [Query(selector, e)] &&
        elements == (if e.Some? then old(elements)[selector := e.value] else old(elements))
      ensures elements == CacheAfter(old(elements), selector, query)
      ensures log == LogAfter(old(elements), old(log), selector, query)
    {
      if selector in elements {
        return Some(elements[selector]);
      }
      e := query(selector);
      LookupStep(log, selector, e);
      if e.Some? {
        elements := elements[selector := e.value];
      }
      log := log + [Query(selector, e)];
    }

    /** `initTheme`: without the toggle or its icon nothing happens;
        otherwise the initial dark state is applied and the toggle
        listened to. */
    method InitTheme(query: string -> Option<Element>, hasIcon: bool, systemDark: bool)
      requires Valid()
      modifies this
      ensures Valid() && store == old(store)
      ensures elements == CacheAfter(old(elements), "#themeToggle", query)
      ensures log == LogAfter(old(elements), old(log), "#themeToggle", query)
      ensures var found := Lookup(old(elements), "#themeToggle", query).Some? && hasIcon;
        var dark := InitialDark(GetItem(store, "theme"), systemDark);
        view == (if !found then old(view)
                 else if dark then old(view).(bodyDark := true, themeListening := true,
                                              iconClasses := Replace(old(view).iconClasses, "fa-moon", "fa-sun"))
                 else old(view).(themeListening := true))
    {
      var toggle := GetElement("#themeToggle", query);
      if toggle.None? || !hasIcon {
        return;
      }
      if InitialDark(GetItem(store, "theme"), systemDark) {
        view := view.(bodyDark := true, iconClasses := Replace(view.iconClasses, "fa-moon", "fa-sun"));
      }
      view := view.(themeListening := true);
    }

    /** The toggle's click handler: leave or enter dark mode and store the
        new theme. */
    method ToggleTheme()
      modifies this
      ensures view.bodyDark == !old(view.bodyDark)
      ensures old(view.bodyDark) ==>
        view.iconClasses == Replace(old(view.iconClasses), "fa-sun", "fa-moon") &&
        store == old(store)["theme" := "light"]
      ensures !old(view.bodyDark) ==>
        view.iconClasses == Replace(old(view.iconClasses), "fa-moon", "fa-sun") &&
        store == old(store)["theme" := "dark"]
      ensures view == old(view).(bodyDark := view.bodyDark, iconClasses := view.iconClasses)
      ensures elements == old(elements) && log == old(log)
    {
      if view.bodyDark {
        view := view.(bodyDark := false, iconClasses := Replace(view.iconClasses, "fa-sun", "fa-moon"));
        store := store["theme" := "light"];
      } else {
        view := view.(bodyDark := true, iconClasses := Replace(view.iconClasses, "fa-moon", "fa-sun"));
        store := store["theme" := "dark"];
      }
    }

    /** An in-page anchor click: the header is looked up through the cache,
        the target directly in the document. */
    method AnchorClick(href: string, target: Option<Element>, query: string -> Option<Element>)
      returns (top: Option<int>)
      requires Valid()
      modifies this
      ensures Valid() && store == old(store) && view == old(view)
      ensures href == "#" || target.None? ==> top.None? && elements == old(elements) && log == old(log)
      ensures href != "#" && target.Some? ==>
        top == ScrollTarget(href, target, Lookup(old(elements), "nav", query)) &&
        elements == CacheAfter(old(elements), "nav", query) &&
        log == LogAfter(old(elements), old(log), "nav", query)
    {
      if href == "#" || target.None? {
        return None;
      }
      var nav := GetElement("nav", query);
      top := ScrollTarget(href, target, nav);
    }

    /** `initCookieConsent`: nothing without the banner or with an answer
        stored; otherwise the buttons are listened to and the banner's
        showing scheduled. */
    method InitCookieConsent(query: string -> Option<Element>)
      requires Valid()
      modifies this
      ensures Valid() && store == old(store)
      ensures var e1 := CacheAfter(old(elements), "#cookieConsent", query);
        var e2 := CacheAfter(e1, "#cookieAccept", query);
        elements == CacheAfter(e2, "#cookieDecline", query) &&
        log == LogAfter(e2, LogAfter(e1, LogAfter(old(elements), old(log), "#cookieConsent", query),
                                     "#cookieAccept", query), "#cookieDecline", query)
      ensures var banner := Lookup(old(elements), "#cookieConsent", query);
        view == (if banner.None? || HasItem(store, "cookieConsent") then old(view)
                 else old(view).(consentListening := true, bannerShowScheduled := true))
    {
      var banner := GetElement("#cookieConsent", query);
      var accept := GetElement("#cookieAccept", query);
      var decline := GetElement("#cookieDecline", query);
      if banner.None? || HasItem(store, "cookieConsent") {
        return;
      }
      view := view.(consentListening := true, bannerShowScheduled := true);
    }

    /** Two seconds after `initCookieConsent` the banner gets `show`; an
        answer given before then does not cancel the timer. */
    method BannerTimerFires()
      requires view.bannerShowScheduled
      modifies this
      ensures view == old(view).(bannerShowScheduled := false, bannerShown := true)
      ensures store == old(store) && elements == old(elements) && log == old(log)
    {
      view := view.(bannerShowScheduled := false, bannerShown := true);
    }

    /** `handleConsent`: store the answer and hide the banner. */
    method HandleConsent(accepted: bool)
      modifies this
      ensures store == old(store)["cookieConsent" := if accepted then "accepted" else "declined"]
      ensures HasItem(store, "cookieConsent") && view == old(view).(bannerHidden := true)
      ensures elements == old(elements) && log == old(log)
    {
      store := store["cookieConsent" := if accepted then "accepted" else "declined"];
      view := view.(bannerHidden := true);
    }
  }

  /** One uncached lookup keeps the cache equal to the replay of the
      queries, and keeps every found selector from being queried again. */
  lemma LookupStep(log: seq<Query>, selector: string, e: Option<Element>)
    requires NoRequery(log) && selector !in Replay(log)
    ensures NoRequery(log + [Query(selector, e)])
    ensures Replay(log + [Query(selector, e)]) ==
      (if e.Some? then Replay(log)[selector := e.value] else Replay(log))
  {
    NotFoundBefore(log, selector);
    NoRequeryStep(log, Query(selector, e));
    ReplayStep(log, Query(selector, e));
  }

  /** No earlier query found a selector the cache does not hold. */
  lemma NotFoundBefore(log: seq<Query>, selector: string)
    requires selector !in Replay(log)
    ensures forall i :: 0 <= i < |log| && log[i].result.Some? ==> log[i].selector != selector
  {
    forall i | 0 <= i < |log| && log[i].result.Some? ensures log[i].selector != selector {
      ReplayHoldsFound(log, i);
    }
  }

  /** The replay of one more query. */
  lemma ReplayStep(log: seq<Query>, q: Query)
    ensures Replay(log + [q]) ==
      (if q.result.Some? && q.selector !in Replay(log) then Replay(log)[q.selector := q.result.value] else Replay(log))
  {
    var log' := log + [q];
    assert log'[..|log'| - 1] == log;
  }

  /** Appending a query for a selector no earlier query found keeps the
      no-requery property. */
  lemma NoRequeryStep(log: seq<Query>, q: Query)
    requires NoRequery(log)
    requires forall i :: 0 <= i < |log| && log[i].result.Some? ==> log[i].selector != q.selector
    ensures NoRequery(log + [q])
  {
    var log' := log + [q];
    forall i, j | 0 <= i < j < |log'| && log'[i].result.Some?
      ensures log'[j].selector != log'[i].selector
    {
      assert log'[i] == log[i];
      if j < |log| {
        assert log'[j] == log[j];
      }
    }
  }
}

/** The services page: the category filter buttons, the search box, and
    the service links that lead to the contact page. */
module Services {
  import opened TextUtil

  /** A `.service-card`: the text of its title, description and category
      elements and its `data-service` attribute (None where missing), and
      the `data-category` of the nearest element carrying one, the card
      itself included, as `closest('[data-category]')` finds it (None when
      there is none). */
  datatype Card = Card(title: Option<string>, description: Option<string>, service: Option<string>,
                       categoryText: Option<string>, section: Option<string>)

  /** `x?.toLowerCase() || ''`. */
  function LowerOrEmpty(x: Option<string>): (r: string)
    ensures x.None? ==> r == ""
    ensures x.Some? ==> r == ToLower(x.value)
  {
    if x.Some? then ToLower(x.value) else ""
  }

  // ---------------------------------------------------------------------
  // Filtering and search

  /** A card is shown under a filter iff the filter is `all` or equals the
      category of the card's section. A button without `data-filter` shows
      nothing. */
  predicate FilterShows(filter: Option<string>, c: Card) {
    filter == Some("all") || (c.section.Some? && filter == Some(c.section.value))
  }

  /** A card is shown for a lower-cased search term iff its lower-cased
      title, description or service name includes the term. */
  predicate SearchShows(term: string, c: Card) {
    Contains(LowerOrEmpty(c.title), term) || Contains(LowerOrEmpty(c.description), term) ||
    Contains(LowerOrEmpty(c.service), term)
  }

  /** An empty search shows every card. */
  lemma EmptySearchShowsAll(c: Card)
    ensures SearchShows("", c)
  {
    ContainsEmpty(LowerOrEmpty(c.title));
  }

  lemma ContainsTrans(s: string, t: string, u: string)
    requires Contains(s, t) && Contains(t, u)
    ensures Contains(s, u)
  {
    ContainsIffOccurs(s, t);
    ContainsIffOccurs(t, u);
    var i :| OccursAt(s, t, i);
    var j :| OccursAt(t, u, j);
    assert s[i..i + |t|] == t && t[j..j + |u|] == u;
    forall k | 0 <= k < |u| ensures s[i + j + k] == u[k] {
      assert s[i + j + k] == s[i..i + |t|][j + k] == t[j + k] == t[j..j + |u|][k];
    }
    assert s[i + j..i + j + |u|] == u;
    assert OccursAt(s, u, i + j);
    ContainsIffOccurs(s, u);
  }

  /** Typing more never reveals a card: a card shown for a longer term is
      shown for every part of it. */
  lemma SearchNarrows(shorter: string, longer: string, c: Card)
    requires Contains(longer, shorter)
    ensures SearchShows(longer, c) ==> SearchShows(shorter, c)
  {
    if Contains(LowerOrEmpty(c.title), longer) {
      ContainsTrans(LowerOrEmpty(c.title), longer, shorter);
    } else if Contains(LowerOrEmpty(c.description), longer) {
      ContainsTrans(LowerOrEmpty(c.description), longer, shorter);
    } else if Contains(LowerOrEmpty(c.service), longer) {
      ContainsTrans(LowerOrEmpty(c.service), longer, shorter);
    }
  }

  lemma ToLowerContains(s: string, t: string)
    requires Contains(s, t)
    ensures Contains(ToLower(s), ToLower(t))
  {
    ContainsIffOccurs(s, t);
    var i :| OccursAt(s, t, i);
    OccursLower(s, t, i);
    ContainsIffOccurs(ToLower(s), ToLower(t));
  }

  lemma OccursLower(s: string, t: string, i: int)
    requires OccursAt(s, t, i)
    ensures OccursAt(ToLower(s), ToLower(t), i)
  {
    LowerSlice(s, i, i + |t|);
  }

  /** Lower-casing commutes with slicing. */
  lemma LowerSlice(s: string, i: int, j: int)
    requires 0 <= i <= j <= |s|
    ensures ToLower(s)[i..j] == ToLower(s[i..j])
  {
    var a, b := ToLower(s)[i..j], ToLower(s[i..j]);
    assert |a| == |b| == j - i;
    forall k | 0 <= k < j - i ensures a[k] == b[k] {
      assert s[i..j][k] == s[i + k];
      assert a[k] == LowerChar(s[i + k]);
      assert b[k] == LowerChar(s[i..j][k]);
    }
  }

  /** The search ignores case: a card whose title includes what was typed,
      in any mix of cases, is shown. */
  lemma TitleMatchShown(typed: string, c: Card)
    requires c.title.Some? && Contains(c.title.value, typed)
    ensures SearchShows(ToLower(typed), c)
  {
    ToLowerContains(c.title.value, typed);
  }

  // ---------------------------------------------------------------------
  // Service links

  /** The action named in the confirmation: the first of `travel`,
      `document`, `certificate` that the category includes decides. */
  function ActionLabel(serviceType: string): (a: string)
    ensures a == "Book Now" <==> Contains(serviceType, "travel")
    ensures a == "Get Certificate" <==>
      !Contains(serviceType, "travel") && !Contains(serviceType, "document") &&
      Contains(serviceType, "certificate")
    ensures a == "Book Now" || a == "Get Certificate" || a == "Apply Now"
  {
    if Contains(serviceType, "travel") then "Book Now"
    else if Contains(serviceType, "document") then "Apply Now"
    else if Contains(serviceType, "certificate") then "Get Certificate"
    else "Apply Now"
  }

  /** The contact page address for a service; `encode` is
      `encodeURIComponent`. */
  function ContactUrl(name: string, serviceType: string, encode: string -> string): string {
    "contact.html?service=" + encode(name) + "&type=" + encode(serviceType)
  }

  /** With an injective encoding that never yields `&`, as
      `encodeURIComponent` is, different services lead to different
      addresses. */
  lemma ContactUrlInjective(n1: string, t1: string, n2: string, t2: string, encode: string -> string)
    requires forall s :: '&' !in encode(s)
    requires forall s, s' :: encode(s) == encode(s') ==> s == s'
    requires ContactUrl(n1, t1, encode) == ContactUrl(n2, t2, encode)
    ensures n1 == n2 && t1 == t2
  {
    var p := "contact.html?service=";
    var e1, e2 := encode(n1), encode(n2);
    var r1, r2 := "&type=" + encode(t1), "&type=" + encode(t2);
    assert ContactUrl(n1, t1, encode) == p + (e1 + r1);
    assert ContactUrl(n2, t2, encode) == p + (e2 + r2);
    assert e1 + r1 == e2 + r2 by {
      assert (p + (e1 + r1))[|p|..] == e1 + r1;
      assert (p + (e2 + r2))[|p|..] == e2 + r2;
    }
    SplitAtFirstChar(e1, r1, e2, r2, '&');
    assert encode(t1) == r1[6..] && encode(t2) == r2[6..];
  }

  /** `confirm(...)`'s question. */
  function Question(action: string, name: string): string {
    "Would you like to " + ToLower(action) + " for " + name + "?"
  }

  /** The page's filter buttons and cards, and where it has navigated. */
  class ServicesPage {
    /** Each `.filter-btn`'s `data-filter`, and whether it is `active`. */
    var filters: seq<Option<string>>
    var active: seq<bool>
    var cards: seq<Card>
    /** Each card's display: shown (`block` or not yet set) or `none`. */
    var shown: seq<bool>
    var hasSearchInput: bool
    /** Which handlers were attached. */
    var filtering: bool
    var searching: bool
    /** `window.location.href` once a link was followed. */
    var location: Option<string>

    predicate Valid()
      reads this
    {
      |active| == |filters| && |shown| == |cards|
    }

    constructor (fs: seq<Option<string>>, cs: seq<Card>, searchInput: bool)
      ensures Valid() && filters == fs && cards == cs && hasSearchInput == searchInput
      ensures forall i :: 0 <= i < |fs| ==> !active[i]
      ensures forall i :: 0 <= i < |cs| ==> shown[i]
      ensures !filtering && !searching && location == None
    {
      filters, cards, hasSearchInput := fs, cs, searchInput;
      active := seq(|fs|, _ => false);
      shown := seq(|cs|, _ => true);
      filtering, searching, location := false, false, None;
    }

    /** `initServiceFiltering` and `initServiceSearch`: nothing is attached
        without buttons (or the search box) and cards. */
    method Init()
      modifies this
      ensures filtering == (old(filtering) || (filters != [] && cards != []))
      ensures searching == (old(searching) || (hasSearchInput && cards != []))
      ensures filters == old(filters) && active == old(active) && cards == old(cards)
      ensures shown == old(shown) && hasSearchInput == old(hasSearchInput) && location == old(location)
    {
      if filters != [] && cards != [] {
        filtering := true;
      }
      if hasSearchInput && cards != [] {
        searching := true;
      }
    }

    /** A click on filter button `b`: it alone becomes active, and each card
        is shown iff the filter lets it through. */
    method FilterClick(b: int)
      requires Valid() && 0 <= b < |filters|
      modifies this
      ensures Valid() && filters == old(filters) && cards == old(cards)
      ensures !filtering ==> active == old(active) && shown == old(shown)
      ensures filtering ==> forall i :: 0 <= i < |active| ==> (active[i] <==> i == b)
      ensures filtering ==> forall i :: 0 <= i < |cards| ==> (shown[i] <==> FilterShows(filters[b], cards[i]))
      ensures filtering == old(filtering) && searching == old(searching)
      ensures hasSearchInput == old(hasSearchInput) && location == old(location)
    {
      if !filtering {
        return;
      }
      var i := 0;
      while i < |active|
        invariant 0 <= i <= |active| && Valid() && filters == old(filters) && cards == old(cards)
        invariant filtering && searching == old(searching) && shown == old(shown)
        invariant hasSearchInput == old(hasSearchInput) && location == old(location)
        invariant forall j :: 0 <= j < i ==> !active[j]
      {
        active := active[i := false];
        i := i + 1;
      }
      active := active[b := true];
      var filter := filters[b];
      i := 0;
      while i < |cards|
        invariant 0 <= i <= |cards| && Valid() && filters == old(filters) && cards == old(cards)
        invariant filtering && searching == old(searching)
        invariant hasSearchInput == old(hasSearchInput) && location == old(location)
        invariant forall j :: 0 <= j < |active| ==> (active[j] <==> j == b)
        invariant forall j :: 0 <= j < i ==> (shown[j] <==> FilterShows(filter, cards[j]))
      {
        shown := shown[i := FilterShows(filter, cards[i])];
        i := i + 1;
      }
    }

    /** An `input` event with the search box holding `value`. */
    method SearchInput(value: string)
      requires Valid()
      modifies this
      ensures Valid() && cards == old(cards) && filters == old(filters) && active == old(active)
      ensures !searching ==> shown == old(shown)
      ensures searching ==> forall i :: 0 <= i < |cards| ==> (shown[i] <==> SearchShows(ToLower(value), cards[i]))
      ensures filtering == old(filtering) && searching == old(searching)
      ensures hasSearchInput == old(hasSearchInput) && location == old(location)
    {
      if !searching {
        return;
      }
      var term := ToLower(value);
      var i := 0;
      while i < |cards|
        invariant 0 <= i <= |cards| && Valid() && cards == old(cards) && active == old(active)
        invariant filters == old(filters) && searching && filtering == old(filtering)
        invariant hasSearchInput == old(hasSearchInput) && location == old(location)
        invariant forall j :: 0 <= j < i ==> (shown[j] <==> SearchShows(term, cards[j]))
      {
        shown := shown[i := SearchShows(term, cards[i])];
        i := i + 1;
      }
    }

    /** A click on a service link inside `card` (None when the link is
        outside any card); `confirmed` is the answer to the question asked.
        The page moves to the contact address only on a yes. */
    method LinkClick(card: Option<Card>, confirmed: bool, encode: string -> string)
      returns (question: string)
      modifies this
      ensures var name := if card.Some? && card.value.service.Some? then card.value.service.value else "";
        var serviceType := if card.Some? then LowerOrEmpty(card.value.categoryText) else "";
        question == Question(ActionLabel(serviceType), name) &&
        location == (if confirmed then Some(ContactUrl(name, serviceType, encode)) else old(location))
      ensures filters == old(filters) && active == old(active) && cards == old(cards) && shown == old(shown)
      ensures filtering == old(filtering) && searching == old(searching) && hasSearchInput == old(hasSearchInput)
    {
      var name := if card.Some? && card.value.service.Some? then card.value.service.value else "";
      var serviceType := if card.Some? then LowerOrEmpty(card.value.categoryText) else "";
      question := Question(ActionLabel(serviceType), name);
      if confirmed {
        location := Some(ContactUrl(name, serviceType, encode));
      }
    }
  }
}

/**
 * Smooth scrolling for same-page anchor links. Both page scripts carry the
 * same code: at page load every `<a>` whose `href` starts with `#` gets a
 * click listener; a click suppresses the browser's own jump, then either
 * scrolls to the top (`#` or the empty `href`), scrolls the element the
 * `href` selects into view, or does nothing when no element matches.
 */
module ScrollRouter {
  import opened Wrappers

  /** An opaque handle of an element of the page. */
  type ElementId = nat

  /** The scroll request one click leads to. */
  datatype ScrollAction = ScrollTop | ScrollInto(target: ElementId) | NoOp

  /** The `href` values that mean "the top of the page". */
  predicate IsTopHref(href: string) {
    href == "#" || href == ""
  }

  /** `a[href^="#"]`: the link has an `href` attribute and it begins with `#`. */
  predicate IsFragmentHref(href: Option<string>) {
    href.Some? && |href.value| > 0 && href.value[0] == '#'
  }

  /**
   * What a click on a link with this `href` asks the page to do. `lookup`
   * stands for `document.querySelector`: a selector that is a key finds that
   * element, any other selector finds nothing.
   */
  function ScrollTargetFor(href: string, lookup: map<string, ElementId>): (a: ScrollAction)
    ensures a.ScrollTop? <==> IsTopHref(href)
    ensures a.ScrollInto? <==> !IsTopHref(href) && href in lookup
    ensures a.NoOp? <==> !IsTopHref(href) && href !in lookup
    ensures a.ScrollInto? ==> a.target == lookup[href]
  {
    if IsTopHref(href) then ScrollTop
    else if href in lookup then ScrollInto(lookup[href])
    else NoOp
  }

  /** The scroll calls an action issues: none for `NoOp`, the action itself otherwise. */
  function Issued(a: ScrollAction): seq<ScrollAction> {
    if a.NoOp? then [] else [a]
  }

  /**
   * `document.querySelectorAll('a[href^="#"]')`: the positions, in document
   * order, of the links whose `href` starts with `#`; `links` holds the
   * `href` attribute of every `<a>` of the page.
   */
  function SameDocumentLinks(links: seq<Option<string>>): seq<nat> {
    if |links| == 0 then []
    else SameDocumentLinks(links[..|links| - 1])
         + (if IsFragmentHref(links[|links| - 1]) then [|links| - 1] else [])
  }

  /** The selected positions are exactly the links whose `href` starts with `#`. */
  lemma {:induction false} SameDocumentLinksExact(links: seq<Option<string>>)
    ensures forall i: nat :: i in SameDocumentLinks(links) <==> i < |links| && IsFragmentHref(links[i])
  {
    if |links| > 0 {
      var init := links[..|links| - 1];
      SameDocumentLinksExact(init);
      forall i: nat | i < |init| ensures init[i] == links[i] { }
    }
  }

  /** The selected positions are strictly increasing: document order, each link once. */
  lemma {:induction false} SameDocumentLinksOrdered(links: seq<Option<string>>)
    ensures forall j, k :: 0 <= j < k < |SameDocumentLinks(links)| ==>
              SameDocumentLinks(links)[j] < SameDocumentLinks(links)[k]
  {
    if |links| > 0 {
      var init := links[..|links| - 1];
      SameDocumentLinksOrdered(init);
      SameDocumentLinksExact(init);
      var s := SameDocumentLinks(init);
      forall j | 0 <= j < |s| ensures s[j] < |links| - 1 {
        assert s[j] in s;
      }
    }
  }

  /** The event object handed to a click listener. */
  class ClickEvent {
    var defaultPrevented: bool

    constructor ()
      ensures !defaultPrevented
    {
      defaultPrevented := false;
    }
  }

  /**
   * The anchor links of one page with their listeners, and the record of
   * what the listeners asked of the page: the selectors they looked up and
   * the scroll calls they made.
   */
  class AnchorRouter {
    /** The `href` attribute of every `<a>` of the page, in document order. */
    const links: seq<Option<string>>
    /** What `document.querySelector` finds for each selector. */
    const lookup: map<string, ElementId>
    /** The positions of the links that carry the click listener. */
    var listening: seq<nat>
    /** The selectors the listeners passed to `document.querySelector`. */
    var queries: seq<string>
    /** The `scrollTo` and `scrollIntoView` calls the listeners made. */
    var scrolls: seq<ScrollAction>

    ghost predicate Valid()
      reads this
    {
      listening == SameDocumentLinks(links)
    }

    /** Page-load wiring: one listener on every link `a[href^="#"]` selects. */
    constructor (links: seq<Option<string>>, lookup: map<string, ElementId>)
      ensures Valid()
      ensures this.links == links && this.lookup == lookup
      ensures queries == [] && scrolls == []
    {
      this.links := links;
      this.lookup := lookup;
      queries := [];
      scrolls := [];
      var wired: seq<nat> := [];
      var k := 0;
      while k < |links|
        invariant 0 <= k <= |links|
        invariant wired == SameDocumentLinks(links[..k])
      {
        assert links[..k + 1][..k] == links[..k];
        if IsFragmentHref(links[k]) {
          wired := wired + [k];
        }
        k := k + 1;
      }
      assert links[..|links|] == links;
      listening := wired;
    }

    /**
     * A click on the `i`-th link. Only a link with a listener reacts; its
     * listener always suppresses the default jump, looks the `href` up only
     * when it does not mean the top, and makes at most one scroll call.
     */
    method OnClick(i: nat, ev: ClickEvent)
      requires Valid()
      modifies this`queries, this`scrolls, ev
      ensures Valid()
      ensures i in listening ==> i < |links| && IsFragmentHref(links[i])
      ensures i in listening ==>
        && ev.defaultPrevented
        && queries == old(queries) + (if IsTopHref(links[i].value) then [] else [links[i].value])
        && scrolls == old(scrolls) + Issued(ScrollTargetFor(links[i].value, lookup))
      ensures i !in listening ==>
        ev.defaultPrevented == old(ev.defaultPrevented) && queries == old(queries) && scrolls == old(scrolls)
    {
      SameDocumentLinksExact(links);
      if i in listening {
        ev.defaultPrevented := true;
        var href := links[i].value;
        if href == "#" || href == "" {
          scrolls := scrolls + [ScrollTop];
        } else {
          queries := queries + [href];
          if href in lookup {
            scrolls := scrolls + [ScrollInto(lookup[href])];
          }
        }
      }
    }
  }

  /** `#` and `''` scroll to the top without consulting the page: the lookup plays no part. */
  lemma TopHrefIgnoresLookup(href: string, lookup1: map<string, ElementId>, lookup2: map<string, ElementId>)
    requires IsTopHref(href)
    ensures ScrollTargetFor(href, lookup1) == ScrollTargetFor(href, lookup2) == ScrollTop
  {
  }

  /** A found target is scrolled into view, and it is the only scroll call made. */
  lemma FoundTargetScrollsInto(href: string, lookup: map<string, ElementId>)
    requires !IsTopHref(href) && href in lookup
    ensures Issued(ScrollTargetFor(href, lookup)) == [ScrollInto(lookup[href])]
  {
  }

  /** No element found: no scroll call at all. */
  lemma MissingTargetIsSilent(href: string, lookup: map<string, ElementId>)
    requires !IsTopHref(href) && href !in lookup
    ensures Issued(ScrollTargetFor(href, lookup)) == []
  {
  }

  /**
   * A wired link never has the empty `href`: `a[href^="#"]` selects only
   * values starting with `#`, so of the two top-of-page values only `#`
   * reaches the listener.
   */
  lemma WiredHrefNeverEmpty(links: seq<Option<string>>, i: nat)
    requires i in SameDocumentLinks(links)
    ensures i < |links| && links[i].Some? && links[i].value != ""
    ensures IsTopHref(links[i].value) <==> links[i].value == "#"
  {
    SameDocumentLinksExact(links);
  }

  /** One link to `#pricing` and an element that the selector finds. */
  method PricingLinkScenario()
  {
    var pricing: ElementId := 7;
    var router := new AnchorRouter([Some("#pricing")], map["#pricing" := pricing]);
    assert router.listening == [0];
    var ev := new ClickEvent();
    router.OnClick(0, ev);
    assert ev.defaultPrevented;
    assert router.scrolls == [ScrollInto(pricing)];
  }
}

/**
 * The hamburger menu. At page load the script looks for the menu button
 * (`.nav-toggle`) and the navigation panel (`.global-nav`); only when both
 * exist does the button get a click listener, and each click toggles the
 * `is-active` class on the button and on the panel, each from its own state.
 */
module NavToggle {
  import opened Wrappers

  /**
   * The two elements: `None` when the page has no such element, otherwise
   * whether it carries the `is-active` class.
   */
  datatype NavState = NavState(button: Option<bool>, panel: Option<bool>)

  /** The listener is installed exactly when both elements exist. */
  predicate HandlerInstalled(s: NavState) {
    s.button.Some? && s.panel.Some?
  }

  /** `classList.toggle('is-active')` on one element. */
  function ToggleActive(marker: bool): bool {
    !marker
  }

  /** The effect of one click on the button: both markers flip when the listener exists, nothing otherwise. */
  function NavClick(s: NavState): (r: NavState)
    ensures r.button.Some? == s.button.Some? && r.panel.Some? == s.panel.Some?
    ensures HandlerInstalled(s) ==> r.button.value != s.button.value && r.panel.value != s.panel.value
    ensures !HandlerInstalled(s) ==> r == s
  {
    if HandlerInstalled(s) then
      NavState(Some(ToggleActive(s.button.value)), Some(ToggleActive(s.panel.value)))
    else s
  }

  /** The state after `n` clicks. */
  function NavClicks(s: NavState, n: nat): NavState {
    if n == 0 then s else NavClick(NavClicks(s, n - 1))
  }

  /** Button and panel markers agree. */
  predicate InLockstep(s: NavState) {
    s.button == s.panel
  }

  /** A click keeps equal markers equal. */
  lemma ClickKeepsLockstep(s: NavState)
    requires InLockstep(s)
    ensures InLockstep(NavClick(s))
  {
  }

  /** Two clicks restore both markers. */
  lemma ClickTwiceIsIdentity(s: NavState)
    ensures NavClick(NavClick(s)) == s
  {
  }

  /** After `n` clicks the state is the start for even `n`, one click away for odd `n`. */
  lemma {:induction false} ClicksParity(s: NavState, n: nat)
    ensures NavClicks(s, n) == if n % 2 == 0 then s else NavClick(s)
  {
    if n > 0 {
      ClicksParity(s, n - 1);
      ClickTwiceIsIdentity(s);
    }
  }

  /** Markers that start equal are equal after any number of clicks. */
  lemma {:induction false} ClicksKeepLockstep(s: NavState, n: nat)
    requires InLockstep(s)
    ensures InLockstep(NavClicks(s, n))
  {
    if n > 0 {
      ClicksKeepLockstep(s, n - 1);
      ClickKeepsLockstep(NavClicks(s, n - 1));
    }
  }

  /** With the button or the panel missing, no number of clicks changes anything. */
  lemma {:induction false} MissingElementIsInert(s: NavState, n: nat)
    requires !HandlerInstalled(s)
    ensures NavClicks(s, n) == s
  {
    if n > 0 {
      MissingElementIsInert(s, n - 1);
    }
  }

  /** The two elements of one page and the listener the page-load code installs. */
  class NavMenu {
    var button: Option<bool>
    var panel: Option<bool>
    var listening: bool

    function State(): NavState
      reads this
    {
      NavState(button, panel)
    }

    ghost predicate Valid()
      reads this
    {
      listening == HandlerInstalled(State())
    }

    /** Page-load wiring: the listener is installed only when both elements exist. */
    constructor (button: Option<bool>, panel: Option<bool>)
      ensures Valid()
      ensures State() == NavState(button, panel)
      ensures listening <==> button.Some? && panel.Some?
    {
      this.button := button;
      this.panel := panel;
      listening := button.Some? && panel.Some?;
    }

    /** A click on the menu button. */
    method Click()
      requires Valid()
      modifies this`button, this`panel
      ensures Valid()
      ensures State() == NavClick(old(State()))
    {
      if listening {
        button := Some(ToggleActive(button.value));
        panel := Some(ToggleActive(panel.value));
      }
    }
  }

  /** Both elements present and closed: one click opens both, a second closes both. */
  method OpenCloseScenario()
  {
    var menu := new NavMenu(Some(false), Some(false));
    menu.Click();
    assert menu.button == Some(true) && menu.panel == Some(true);
    menu.Click();
    assert menu.button == Some(false) && menu.panel == Some(false);
  }
}

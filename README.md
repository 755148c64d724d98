# Page scripts of the aizukan site, modelled in Dafny

The site has two page scripts, `main.js` and `AIweb/main.js`. Both wire
the page when its markup has loaded:

- **Smooth scrolling.** Every link whose `href` starts with `#` gets a click
  listener. The listener suppresses the browser's jump. Then `#` or `''`
  scrolls to the top; any other `href` is passed to `document.querySelector`,
  and a found element is scrolled into view; nothing found means nothing happens.
- **Hamburger menu.** When both `.nav-toggle` and `.global-nav` exist, a click
  on the button toggles `is-active` on each of them.
- **Theme switch** (`main.js` only). The theme is resolved from local storage,
  then from the system's dark preference, then defaults to `light`. Applying
  it sets the root `data-theme` attribute, writes storage and refreshes the
  `.theme-toggle` control. A click on the control toggles the theme.

The scrolling and menu code of the two files is the same text, so one
module models it for both: `ScrollRouter` (scroll_router.dfy) and
`NavToggle` (nav_toggle.dfy). `Theme` (theme.dfy) models the theme switch.
`Wrappers` (wrappers.dfy) holds `Option`, which stands for `null`.

Page-load initialisation runs once per page, so it is each class's
constructor. Each click listener is a method. Pure decisions are functions:
`ScrollTargetFor`, `NavClick`, `ResolveTheme`, `NextTheme`, `LabelFor`.
Browser state the scripts touch is held in class fields:
- the hrefs of the links and the listeners they carry;
- the selectors looked up and the scroll calls made;
- the two `is-active` markers;
- the stored theme, the root attribute and the control's label.

The code, not a two-value theme enum, decides these points:
- A theme is any string, not only `light` or `dark`. A saved `blue` is applied as is. Its label is the moon, and the first toggle gives `dark`.
- An empty saved theme counts as absent, because the code tests truthiness.
- The resolved theme is written to storage at page load too, not only on a toggle.

## Model

| member | source | states |
|---|---|---|
| ScrollRouter.ScrollTargetFor | main.js:77-97 | `#` or `''` gives scroll-to-top and nothing else. Any other href gives scroll-into-view exactly when the lookup finds it, on the element found. Otherwise it gives no action. |
| ScrollRouter.SameDocumentLinksExact | AIweb/main.js:11 | A link is selected exactly when its `href` exists and starts with `#`. |
| ScrollRouter.SameDocumentLinksOrdered | main.js:60 | The selected links come in document order, each once. |
| ScrollRouter.AnchorRouter.constructor | AIweb/main.js:11-18 | After page load, the links with a listener are exactly the selected links, and nothing has been looked up or scrolled. |
| ScrollRouter.AnchorRouter.OnClick | main.js:67-98 | A click on a wired link always prevents the default. It looks the href up only when it is not `#`/`''`, and makes exactly the scroll call `ScrollTargetFor` names. A link without a listener changes nothing. |
| ScrollRouter.TopHrefIgnoresLookup | AIweb/main.js:28-33 | For `#` and `''`, the action is scroll-to-top whatever the page contains. |
| ScrollRouter.FoundTargetScrollsInto | AIweb/main.js:37-46 | A found target gives exactly one scroll call: scroll-into-view on that element. |
| ScrollRouter.MissingTargetIsSilent | AIweb/main.js:40 | A target that is not found gives no scroll call. |
| ScrollRouter.WiredHrefNeverEmpty | AIweb/main.js:11-28 | A wired link's href is never empty, so `#` is the only top-of-page value a listener sees. |
| NavToggle.NavClick | main.js:110-122 | A click keeps which elements exist. With both present it flips each marker. With either missing it changes nothing. |
| NavToggle.ClickKeepsLockstep | AIweb/main.js:64-73 | Equal button and panel markers stay equal after a click. |
| NavToggle.ClickTwiceIsIdentity | main.js:117-121 | Two clicks restore both markers. |
| NavToggle.ClicksParity | AIweb/main.js:68-72 | After n clicks the state is the start for even n, and one click away from it for odd n. |
| NavToggle.ClicksKeepLockstep | main.js:113-122 | Markers that start equal are equal after any number of clicks. |
| NavToggle.MissingElementIsInert | AIweb/main.js:61 | With the button or the panel missing, no number of clicks changes any marker. |
| NavToggle.NavMenu.constructor | main.js:105-113 | The listener is installed exactly when both elements exist. |
| NavToggle.NavMenu.Click | AIweb/main.js:64-73 | The new markers are `NavClick` of the old ones, and the listener invariant is kept. |
| Theme.ResolveTheme | main.js:11-21 | The result is never empty. A non-empty saved value is returned. Otherwise the result is `dark` exactly when the system prefers dark, and `light` exactly when it does not. |
| Theme.SavedThemeWins | main.js:12-15 | A non-empty saved value wins over a dark system preference. |
| Theme.ResolutionIsStable | main.js:42-43 | Once the resolved theme is stored, a later load resolves to it again, whatever the preference says. |
| Theme.LabelFor | main.js:29-38 | The sun label ("switch to light") is shown exactly for `dark`. The moon label ("switch to dark") is shown for every other theme. |
| Theme.NextTheme | main.js:49-50 | A toggle gives `light` exactly when the attribute is `dark`, and `dark` for any other value or a missing attribute. |
| Theme.ToggleTwiceRestores | main.js:49-51 | From `light` or `dark`, two toggles restore the theme. |
| Theme.ToggleTwiceNormalizes | main.js:50 | Any other theme becomes `dark` on the first toggle and `light` on the second. |
| Theme.ToggledParity | main.js:48-52 | After one or more toggles the theme is `light` or `dark`. It is `dark` exactly when the start was `dark` and n is even, or the start was anything else and n is odd. |
| Theme.ThemeController.constructor | main.js:42-53 | After page load the attribute holds the resolved theme and storage holds the same value, even when nothing was saved. The control shows that theme's label. The listener exists exactly when the control does. |
| Theme.ThemeController.Apply | main.js:24-39 | The attribute and storage both become the theme. A present control gets the theme's label. An absent control stays absent. |
| Theme.ThemeController.OnToggleClick | main.js:48-52 | With the listener, the attribute becomes `NextTheme` of the old attribute, storage equals it and the label matches. Without it, nothing changes. The invariant storage = attribute with a matching label is kept. |

## Left out

- Event dispatch (`DOMContentLoaded`, `addEventListener`) belongs to the browser. Initialisation is a constructor, run once, and each listener is a method called directly.
- The model records only which scroll was requested. The smooth animation and the visual effect of `scrollTo` and `scrollIntoView` are left out.
- CSS selector semantics are modelled as a map from selector to the first matching element. So is `querySelector` throwing on a malformed selector such as `#1abc`. That throw would end the listener after it had prevented the default; the model treats the selector as not found.
- A link's `href` is fixed at page load. The script re-reads it at click time, so a later change to the attribute is not modelled.
- `localStorage` durability, origin scoping, cross-tab writes and exceptions from `getItem`/`setItem` are left out. The saved value is a plain input.
- `window.matchMedia` internals are left out. The dark preference is a boolean input. An unavailable `matchMedia` is the input `false`.
- `.theme-toggle` is looked up separately at page load and inside each apply. The model treats both as one control whose presence does not change.
- NavToggle.NavClick: the button and the panel are taken to be distinct elements. If one element matched both `.nav-toggle` and `.global-nav`, a click would toggle its class twice and change nothing; the model does not capture that aliasing.
- CSS effects of `is-active` and `data-theme`, and how the emoji glyphs render, are left out. Glyphs and titles are string constants.

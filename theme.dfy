/**
 * The light/dark theme switch of the main page. The theme lives in two
 * places, the `data-theme` attribute of the root element and the `theme`
 * key of local storage, and an optional `.theme-toggle` control shows the
 * action a click offers. Theme values are plain strings: nothing restricts
 * them to `light` and `dark`.
 */
module Theme {
  import opened Wrappers

  /** The text and `title` of the theme-toggle control. */
  datatype ToggleLabel = ToggleLabel(text: string, title: string)

  /** Shown while the dark theme is applied: a sun, offering the light theme. */
  const SwitchToLight: ToggleLabel := ToggleLabel("☀️", "ライトモードに切り替え")
  /** Shown under any other theme: a moon, offering the dark theme. */
  const SwitchToDark: ToggleLabel := ToggleLabel("🌙", "ダークモードに切り替え")

  /**
   * The theme chosen at page load: a non-empty saved value as it is, else
   * `dark` when the system reports a dark preference (false also when the
   * preference cannot be queried), else `light`.
   */
  function ResolveTheme(saved: Option<string>, prefersDark: bool): (t: string)
    ensures t != ""
    ensures (saved.Some? && saved.value != "") ==> t == saved.value
    ensures (saved.None? || saved.value == "") ==> (t == "dark" <==> prefersDark) && (t == "light" <==> !prefersDark)
  {
    if saved.Some? && saved.value != "" then saved.value
    else if prefersDark then "dark"
    else "light"
  }

  /** The control's label for an applied theme. */
  function LabelFor(theme: string): (l: ToggleLabel)
    ensures l == SwitchToLight <==> theme == "dark"
    ensures l == SwitchToDark <==> theme != "dark"
  {
    if theme == "dark" then SwitchToLight else SwitchToDark
  }

  /** The theme a toggle click applies, given the current root attribute. */
  function NextTheme(current: Option<string>): (t: string)
    ensures t == "light" <==> current == Some("dark")
    ensures t == "dark" <==> current != Some("dark")
  {
    if current == Some("dark") then "light" else "dark"
  }

  /** The applied theme after `n` toggle clicks starting from `t`. */
  function Toggled(t: string, n: nat): string {
    if n == 0 then t else NextTheme(Some(Toggled(t, n - 1)))
  }

  /** A non-empty saved theme wins over the system preference, whatever the value. */
  lemma SavedThemeWins(saved: string, prefersDark: bool)
    requires saved != ""
    ensures ResolveTheme(Some(saved), prefersDark) == saved
  {
  }

  /**
   * The resolved theme is stored at page load and, being non-empty, is
   * resolved again on every later load whatever the preference then says.
   */
  lemma ResolutionIsStable(saved: Option<string>, prefersDark: bool, laterPrefersDark: bool)
    ensures ResolveTheme(Some(ResolveTheme(saved, prefersDark)), laterPrefersDark) == ResolveTheme(saved, prefersDark)
  {
  }

  /** From `light` or `dark`, two toggles restore the theme. */
  lemma ToggleTwiceRestores(t: string)
    requires t == "light" || t == "dark"
    ensures NextTheme(Some(NextTheme(Some(t)))) == t
  {
  }

  /** Any other value is not restored: its first toggle gives `dark`, the second `light`. */
  lemma ToggleTwiceNormalizes(t: string)
    requires t != "light" && t != "dark"
    ensures NextTheme(Some(t)) == "dark" && NextTheme(Some(NextTheme(Some(t)))) == "light"
  {
  }

  /**
   * After `n >= 1` toggles the theme is `light` or `dark`, and it is `dark`
   * exactly when the start was `dark` and `n` is even or the start was
   * anything else and `n` is odd.
   */
  lemma {:induction false} ToggledParity(t: string, n: nat)
    requires n >= 1
    ensures Toggled(t, n) == "light" || Toggled(t, n) == "dark"
    ensures Toggled(t, n) == "dark" <==> ((t == "dark") <==> n % 2 == 0)
  {
    if n > 1 {
      ToggledParity(t, n - 1);
    }
  }

  /** The theme state of one page: storage, the root attribute and the optional control. */
  class ThemeController {
    /** `localStorage` key `theme`. */
    var stored: Option<string>
    /** The root element's `data-theme` attribute. */
    var rootTheme: Option<string>
    /** The `.theme-toggle` control's label, `None` when the page has no such control. */
    var control: Option<ToggleLabel>
    /** Whether the control carries the click listener. */
    var listening: bool

    /** Storage and attribute agree, and the control shows the label of the applied theme. */
    ghost predicate Valid()
      reads this
    {
      && rootTheme.Some?
      && stored == rootTheme
      && (control.Some? ==> control.value == LabelFor(rootTheme.value))
      && listening == control.Some?
    }

    /**
     * Page load: resolve the theme, apply it, and put a listener on the
     * control if there is one. `rootTheme` is the attribute the markup
     * starts with; it is overwritten.
     */
    constructor (saved: Option<string>, rootTheme: Option<string>, control: Option<ToggleLabel>, prefersDark: bool)
      ensures Valid()
      ensures this.rootTheme == Some(ResolveTheme(saved, prefersDark))
      ensures this.control.Some? == control.Some?
      ensures listening == control.Some?
    {
      stored := saved;
      this.rootTheme := rootTheme;
      this.control := control;
      listening := false;
      new;
      var current := ResolveTheme(stored, prefersDark);
      Apply(current);
      listening := this.control.Some?;
    }

    /** Set the attribute, write storage, refresh the control if present. */
    method Apply(theme: string)
      modifies this`stored, this`rootTheme, this`control
      ensures rootTheme == Some(theme) && stored == Some(theme)
      ensures control == if old(control).Some? then Some(LabelFor(theme)) else None
    {
      rootTheme := Some(theme);
      stored := Some(theme);
      if control.Some? {
        if theme == "dark" {
          control := Some(SwitchToLight);
        } else {
          control := Some(SwitchToDark);
        }
      }
    }

    /** A click on the theme-toggle control. */
    method OnToggleClick()
      requires Valid()
      modifies this`stored, this`rootTheme, this`control
      ensures Valid()
      ensures listening == old(listening)
      ensures old(listening) ==> rootTheme == Some(NextTheme(old(rootTheme))) && stored == rootTheme
      ensures old(listening) ==> control == Some(LabelFor(NextTheme(old(rootTheme))))
      ensures !old(listening) ==> rootTheme == old(rootTheme) && stored == old(stored) && control == old(control)
    {
      if listening {
        var next := if rootTheme == Some("dark") then "light" else "dark";
        Apply(next);
      }
    }
  }

  /** No saved theme and a dark system preference. */
  method DarkPreferenceScenario()
  {
    var page := new ThemeController(None, None, Some(ToggleLabel("", "")), true);
    assert page.rootTheme == Some("dark") && page.stored == Some("dark");
    assert page.control == Some(SwitchToLight);
    page.OnToggleClick();
    assert page.rootTheme == Some("light") && page.stored == Some("light");
    page.OnToggleClick();
    assert page.rootTheme == Some("dark") && page.control == Some(SwitchToLight);
  }

  /** A saved `blue` is applied as is; the first toggle gives `dark`. */
  method UnknownSavedThemeScenario()
  {
    var page := new ThemeController(Some("blue"), None, Some(ToggleLabel("", "")), true);
    assert page.rootTheme == Some("blue") && page.control == Some(SwitchToDark);
    page.OnToggleClick();
    assert page.rootTheme == Some("dark");
  }
}

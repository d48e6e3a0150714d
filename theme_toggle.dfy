/**
 * The JackWeb theme controller: a dark/light switch whose current value lives
 * in the root element's `data-theme` attribute and whose persisted preference
 * lives in local storage under the key `jackweb-theme`.
 *
 * The decision logic (system theme, initial theme, the flip, the read-back
 * predicates, the icon state) is a set of pure functions; the controller is a
 * class whose fields stand for the DOM, the storage entry and the stream of
 * dispatched `themechange` events, and whose methods update them in place.
 */
module ThemeToggle {
  import opened Wrappers

  const Dark := "dark"
  const Light := "light"

  /** Whether a storage read counts as "something stored": null and "" are falsy. */
  predicate Truthy(s: Option<string>)
  {
    s.Some? && s.value != ""
  }

  /** The theme the host environment advertises; dark when the media query API is missing. */
  function SystemTheme(hasMatchMedia: bool, prefersLight: bool): (t: string)
    ensures t == Dark || t == Light
    ensures t == Light <==> hasMatchMedia && prefersLight
  {
    if hasMatchMedia && prefersLight then Light else Dark
  }

  /** The theme chosen at start-up: a non-empty stored value wins, as-is; otherwise the system theme. */
  function InitialTheme(stored: Option<string>, hasMatchMedia: bool, prefersLight: bool): (t: string)
    ensures t != ""
    ensures Truthy(stored) ==> t == stored.value
    ensures !Truthy(stored) ==> (t == Dark || t == Light)
    ensures !Truthy(stored) ==> (t == Light <==> hasMatchMedia && prefersLight)
  {
    if Truthy(stored) then stored.value else SystemTheme(hasMatchMedia, prefersLight)
  }

  /** The theme a toggle moves to: light from exactly "dark", dark from anything else. */
  function Flip(current: Option<string>): (t: string)
    ensures t == Dark || t == Light
    ensures t == Light <==> current == Some(Dark)
  {
    if current == Some(Dark) then Light else Dark
  }

  predicate IsDarkTheme(attr: Option<string>)
  {
    attr == Some(Dark)
  }

  predicate IsLightTheme(attr: Option<string>)
  {
    attr == Some(Light)
  }

  /** Display state of the toggle button: sun and moon icon visibility and its aria-label. */
  datatype Icons = Icons(sunShown: bool, moonShown: bool, ariaLabel: string)

  /** The icon state that matches a theme attribute. */
  function IconsFor(attr: Option<string>): (r: Icons)
    ensures r.moonShown <==> IsDarkTheme(attr)
    ensures r.sunShown <==> !r.moonShown
    ensures r.ariaLabel == "Switch to " + Flip(attr) + " mode"
  {
    if attr == Some(Dark) then Icons(false, true, "Switch to light mode")
    else Icons(true, false, "Switch to dark mode")
  }

  /** Whether a key pressed on the button activates it. */
  predicate ActivationKey(key: string)
  {
    key == "Enter" || key == " "
  }

  /** The part of the page state the theme operations change besides the icons. */
  datatype ThemeState = ThemeState(attr: Option<string>, stored: Option<string>, events: seq<string>)

  /** `setTheme(v)`: attribute, storage, one `themechange` event carrying `v`. */
  function AfterSet(s: ThemeState, v: string): ThemeState
  {
    ThemeState(Some(v), Some(v), s.events + [v])
  }

  /** `toggleTheme()`. */
  function AfterToggle(s: ThemeState): ThemeState
  {
    AfterSet(s, Flip(s.attr))
  }

  /** The system preference listener, called with the new value of the media query. */
  function AfterSystemChange(s: ThemeState, matches: bool): ThemeState
  {
    if Truthy(s.stored) then s else AfterSet(s, SystemTheme(true, matches))
  }

  /** The keydown listener of the toggle button. */
  function AfterKey(s: ThemeState, key: string): ThemeState
  {
    if ActivationKey(key) then AfterToggle(s) else s
  }

  /** A run of system preference notifications, in order. */
  function AfterChanges(s: ThemeState, ms: seq<bool>): ThemeState
    decreases |ms|
  {
    if ms == [] then s else AfterChanges(AfterSystemChange(s, ms[0]), ms[1..])
  }

  /** Never both dark and light; an absent or other attribute is neither. */
  lemma DarkLightExclusive(attr: Option<string>)
    ensures !(IsDarkTheme(attr) && IsLightTheme(attr))
    ensures IsDarkTheme(attr) || IsLightTheme(attr) <==> attr == Some(Dark) || attr == Some(Light)
  {
  }

  /** The initial theme is dark or light unless storage holds some other non-empty string. */
  lemma InitialThemeWellFormed(stored: Option<string>, hasMatchMedia: bool, prefersLight: bool)
    ensures InitialTheme(stored, hasMatchMedia, prefersLight) in {Dark, Light}
        <==> !Truthy(stored) || stored.value in {Dark, Light}
  {
  }

  /** Once the preference is persisted, system preference no longer matters at start-up. */
  lemma InitialThemeIgnoresSystem(stored: Option<string>, hasMatchMedia: bool)
    ensures InitialTheme(stored, hasMatchMedia, true) == InitialTheme(stored, hasMatchMedia, false)
        <==> Truthy(stored) || !hasMatchMedia
  {
  }

  /** After `setTheme(v)`, `get()` returns `v` and the read-back predicates follow `v`. */
  lemma SetThemeReadBack(s: ThemeState, v: string)
    ensures AfterSet(s, v).attr == Some(v) && AfterSet(s, v).stored == Some(v)
    ensures IsDarkTheme(AfterSet(s, v).attr) <==> v == Dark
    ensures IsLightTheme(AfterSet(s, v).attr) <==> v == Light
    ensures AfterSet(s, v).events == s.events + [v]
  {
  }

  /** Two toggles return to dark from dark, and otherwise (light, absent, other) end at light. */
  lemma ToggleTwice(s: ThemeState)
    ensures AfterToggle(AfterToggle(s)).attr == (if s.attr == Some(Dark) then Some(Dark) else Some(Light))
    ensures s.attr == Some(Dark) || s.attr == Some(Light) ==> AfterToggle(AfterToggle(s)).attr == s.attr
    ensures AfterToggle(AfterToggle(s)).events == s.events + [Flip(s.attr), Flip(Some(Flip(s.attr)))]
  {
  }

  /** Enter and Space toggle; every other key leaves the state alone. */
  lemma KeyHandling(s: ThemeState, key: string)
    ensures AfterKey(s, key) == s <==> !ActivationKey(key)
  {
  }

  /** With a preference persisted, any run of system notifications changes nothing. */
  lemma {:induction false} StoredPreferenceIsSticky(s: ThemeState, ms: seq<bool>)
    requires Truthy(s.stored)
    ensures AfterChanges(s, ms) == s
  {
    if ms != [] {
      assert AfterSystemChange(s, ms[0]) == s;
      StoredPreferenceIsSticky(s, ms[1..]);
    }
  }

  /**
   * With nothing persisted, only the first of a run of system notifications takes
   * effect: applying it persists its theme, which silences every later one.
   */
  lemma {:induction false} OnlyFirstSystemChangeApplies(s: ThemeState, ms: seq<bool>)
    requires !Truthy(s.stored) && ms != []
    ensures AfterChanges(s, ms) == AfterSet(s, SystemTheme(true, ms[0]))
    ensures AfterChanges(s, ms).events == s.events + [if ms[0] then Light else Dark]
  {
    var first := AfterSet(s, SystemTheme(true, ms[0]));
    assert AfterSystemChange(s, ms[0]) == first;
    StoredPreferenceIsSticky(first, ms[1..]);
  }

  /** Any explicit `setTheme` with a non-empty value makes all later system notifications no-ops. */
  lemma {:induction false} SetThemeMakesSticky(s: ThemeState, v: string, ms: seq<bool>)
    requires v != ""
    ensures AfterChanges(AfterSet(s, v), ms) == AfterSet(s, v)
  {
    StoredPreferenceIsSticky(AfterSet(s, v), ms);
  }

  /** A `setTheme("")` stores a falsy value, so the next system notification still applies. */
  lemma EmptySetIsNotSticky(s: ThemeState, matches: bool)
    ensures AfterSystemChange(AfterSet(s, ""), matches).attr == Some(if matches then Light else Dark)
  {
  }

  /**
   * The controller. Element presence is fixed by the page; `attr`, `stored`, the icon
   * state, the event log and which listeners are registered change as the scripts run.
   */
  class ThemeController {
    /** The root element's `data-theme` attribute. */
    var attr: Option<string>
    /** The local-storage entry under `jackweb-theme`. */
    var stored: Option<string>
    /** Payloads of the `themechange` events dispatched on the document, oldest first. */
    var events: seq<string>

    const hasMatchMedia: bool
    /** What `(prefers-color-scheme: light)` reports when the page initialises. */
    const systemPrefersLight: bool
    const hasButton: bool
    const hasSun: bool
    const hasMoon: bool

    var sunShown: bool
    var moonShown: bool
    var ariaLabel: string

    var systemListening: bool
    var buttonListening: bool

    /** The page before `init` runs: whatever the markup and storage already hold, no event yet. */
    constructor (attr0: Option<string>, stored0: Option<string>, hasMatchMedia: bool,
                 systemPrefersLight: bool, hasButton: bool, hasSun: bool, hasMoon: bool,
                 icons0: Icons)
      ensures attr == attr0 && stored == stored0 && events == []
      ensures this.hasMatchMedia == hasMatchMedia && this.systemPrefersLight == systemPrefersLight
      ensures this.hasButton == hasButton && this.hasSun == hasSun && this.hasMoon == hasMoon
      ensures CurrentIcons() == icons0
      ensures !systemListening && !buttonListening
    {
      attr, stored, events := attr0, stored0, [];
      this.hasMatchMedia, this.systemPrefersLight := hasMatchMedia, systemPrefersLight;
      this.hasButton, this.hasSun, this.hasMoon := hasButton, hasSun, hasMoon;
      sunShown, moonShown, ariaLabel := icons0.sunShown, icons0.moonShown, icons0.ariaLabel;
      systemListening, buttonListening := false, false;
    }

    function Theme(): ThemeState
      reads this
    {
      ThemeState(attr, stored, events)
    }

    function CurrentIcons(): Icons
      reads this
    {
      Icons(sunShown, moonShown, ariaLabel)
    }

    /** The button and both of its icons are on the page. */
    predicate HasControl()
    {
      hasButton && hasSun && hasMoon
    }

    /** The icons show the current theme (vacuous when there is no complete control). */
    predicate IconsSynced()
      reads this
    {
      HasControl() ==> CurrentIcons() == IconsFor(attr)
    }

    /** After an icon update: synced when the control is complete, untouched otherwise. */
    predicate IconsFollow(prev: Icons)
      reads this
    {
      if HasControl() then CurrentIcons() == IconsFor(attr) else CurrentIcons() == prev
    }

    /** `updateThemeToggleIcon()`. */
    method UpdateToggleIcon()
      modifies this`sunShown, this`moonShown, this`ariaLabel
      ensures IconsFollow(old(CurrentIcons()))
      ensures IconsSynced()
    {
      if !hasButton {
        return;
      }
      if !hasSun || !hasMoon {
        return;
      }
      if attr == Some(Dark) {
        sunShown := false;
        moonShown := true;
        ariaLabel := "Switch to light mode";
      } else {
        sunShown := true;
        moonShown := false;
        ariaLabel := "Switch to dark mode";
      }
    }

    /** `setTheme(theme)`, also the public `set`. */
    method SetTheme(theme: string)
      modifies this`attr, this`stored, this`events, this`sunShown, this`moonShown, this`ariaLabel
      ensures Theme() == AfterSet(old(Theme()), theme)
      ensures IconsFollow(old(CurrentIcons())) && IconsSynced()
    {
      attr := Some(theme);
      stored := Some(theme);
      UpdateToggleIcon();
      events := events + [theme];
    }

    /** `toggleTheme()`: the button's click listener and the public `toggle`. */
    method Toggle()
      modifies this`attr, this`stored, this`events, this`sunShown, this`moonShown, this`ariaLabel
      ensures Theme() == AfterToggle(old(Theme()))
      ensures IconsFollow(old(CurrentIcons())) && IconsSynced()
    {
      var current := attr;
      var newTheme := Flip(current);
      SetTheme(newTheme);
    }

    /** The media query `change` listener. */
    method OnSystemChange(matches: bool)
      requires systemListening
      modifies this`attr, this`stored, this`events, this`sunShown, this`moonShown, this`ariaLabel
      ensures Theme() == AfterSystemChange(old(Theme()), matches)
      ensures Truthy(old(stored)) ==> CurrentIcons() == old(CurrentIcons())
      ensures !Truthy(old(stored)) ==> IconsFollow(old(CurrentIcons()))
    {
      if !Truthy(stored) {
        SetTheme(if matches then Light else Dark);
      }
    }

    /** The button's `keydown` listener. */
    method OnKey(key: string)
      requires buttonListening
      modifies this`attr, this`stored, this`events, this`sunShown, this`moonShown, this`ariaLabel
      ensures Theme() == AfterKey(old(Theme()), key)
      ensures ActivationKey(key) ==> IconsFollow(old(CurrentIcons()))
      ensures !ActivationKey(key) ==> CurrentIcons() == old(CurrentIcons())
    {
      if key == "Enter" || key == " " {
        Toggle();
      }
    }

    /**
     * `init()`: applies the initial theme without persisting it, syncs the icons,
     * registers the listeners that can be registered and dispatches one event.
     */
    method Init()
      modifies this`attr, this`events, this`sunShown, this`moonShown, this`ariaLabel
      modifies this`systemListening, this`buttonListening
      ensures attr == Some(InitialTheme(stored, hasMatchMedia, systemPrefersLight))
      ensures stored == old(stored)
      ensures events == old(events) + [InitialTheme(stored, hasMatchMedia, systemPrefersLight)]
      ensures IconsFollow(old(CurrentIcons())) && IconsSynced()
      ensures buttonListening == (old(buttonListening) || hasButton)
      ensures systemListening == (old(systemListening) || hasMatchMedia)
    {
      var initialTheme := InitialTheme(stored, hasMatchMedia, systemPrefersLight);
      attr := Some(initialTheme);
      UpdateToggleIcon();
      if hasButton {
        buttonListening := true;
      }
      if hasMatchMedia {
        systemListening := true;
      }
      events := events + [initialTheme];
    }

    /** The public `get`. */
    method Get() returns (theme: Option<string>)
      ensures theme == attr
    {
      theme := attr;
    }

    /** The public `isDark`. */
    method IsDark() returns (dark: bool)
      ensures dark <==> IsDarkTheme(attr)
    {
      dark := attr == Some(Dark);
    }

    /** The public `isLight`. */
    method IsLight() returns (light: bool)
      ensures light <==> IsLightTheme(attr)
    {
      light := attr == Some(Light);
    }
  }
}

# JackWeb theme switcher and FAQ accordion, modelled in Dafny

This project models the two browser scripts of the JackWeb site:

- **Theme controller** (`assets/js/theme-toggle.js`). The current theme is the root
  element's `data-theme` attribute. The persisted preference is the local-storage entry
  `jackweb-theme`. At start-up a non-empty stored value wins as-is. Otherwise the theme is
  `light` when the `(prefers-color-scheme: light)` media query matches, and `dark` by
  default. A toggle turns exactly `dark` into `light` and anything else into `dark`.
  `setTheme` writes the attribute and storage, re-syncs the toggle button's sun/moon icons
  and `aria-label`, and dispatches one `themechange` event. A system-preference change is
  applied only while nothing (or the empty string) is stored. Applying it goes through
  `setTheme`, which persists the value, so later system changes are ignored.
- **FAQ accordion** (`assets/js/faq-toggle.js`). A click on one `.faq-toggle` button
  collapses every other button and flips the clicked one. `setExpandedState` writes
  `aria-expanded` and, for each element that exists, the panel's `hidden` attribute, the
  container's `is-open` class and the chevron glyph.

Files:

- `wrappers.dfy`: the `Option` type used for attributes and storage entries that may be absent.
- `theme_toggle.dfy`, module `ThemeToggle`:
  - pure decision functions (`SystemTheme`, `InitialTheme`, `Flip`, `IconsFor`);
  - step functions over `ThemeState` (attribute, stored value, event log), with lemmas about them;
  - class `ThemeController`. Its fields are the DOM, storage and event stream. Its methods update those fields in place.
- `faq_toggle.dfy`, module `FaqToggle`:
  - the per-button record `Item`, the function `Applied` that specifies `setExpandedState`, and `ClickResult`, which specifies a click;
  - class `Accordion`, whose `Click` loops over an `array<Item>` and updates it in place.

Inputs from the host are parameters or constant fields:

- `hasMatchMedia`: whether `window.matchMedia` exists;
- `systemPrefersLight`: whether the media query matches when the page initialises;
- `matches`: the value carried by a media-query change;
- the pressed key;
- which buttons, icons, panels, containers and chevrons are on the page.

Events are modelled as payloads appended to `events`.

Behaviour of the code worth knowing:

- The code does not normalise a stored value. Any non-empty string, such as `blue`, becomes the theme (`InitialThemeWellFormed`).
- `init` sets the attribute directly and does not write storage (`Init`).
- `setTheme` accepts any string. `set("")` stores a falsy value, so the next system change still applies (`EmptySetIsNotSticky`).

## Model

| member | source | states |
|---|---|---|
| ThemeToggle.SystemTheme | assets/js/theme-toggle.js:23-28 | the system theme is `light` exactly when the media-query API exists and reports a light preference, otherwise `dark` |
| ThemeToggle.InitialTheme | assets/js/theme-toggle.js:19-36 | a non-empty stored value is returned as-is, even if it is neither theme; otherwise the result is `light` iff the system prefers light, else `dark`; never empty |
| ThemeToggle.Flip | assets/js/theme-toggle.js:52-53 | the toggle target is always `dark` or `light`, and it is `light` exactly when the current attribute is exactly `dark` |
| ThemeToggle.IconsFor | assets/js/theme-toggle.js:60-80 | the moon shows exactly when the theme is dark, the sun exactly when the moon does not, and the label names the theme a toggle would switch to |
| ThemeToggle.DarkLightExclusive | assets/js/theme-toggle.js:161-163 | `isDark` and `isLight` are never both true; both are false for an absent or other attribute |
| ThemeToggle.InitialThemeWellFormed | assets/js/theme-toggle.js:30-36 | the initial theme is `dark` or `light` iff nothing truthy is stored or the stored value is one of them |
| ThemeToggle.InitialThemeIgnoresSystem | assets/js/theme-toggle.js:30-36 | the system preference affects the initial theme iff nothing truthy is stored and the media-query API exists |
| ThemeToggle.SetThemeReadBack | assets/js/theme-toggle.js:41-46 | after `setTheme(v)` the attribute and storage hold `v`, `isDark`/`isLight` follow `v`, and exactly one event carrying `v` is appended |
| ThemeToggle.ToggleTwice | assets/js/theme-toggle.js:51-55 | two toggles return to `dark` from `dark` and to `light` from `light`; from an absent or other value they end at `light`; two events are logged |
| ThemeToggle.KeyHandling | assets/js/theme-toggle.js:128-133 | a key leaves the state unchanged iff it is neither Enter nor Space |
| ThemeToggle.StoredPreferenceIsSticky | assets/js/theme-toggle.js:102-107 | with a non-empty stored value, any run of system-preference changes leaves attribute, storage and events unchanged |
| ThemeToggle.OnlyFirstSystemChangeApplies | assets/js/theme-toggle.js:102-107 | with nothing stored, a run of system changes has the effect of its first change alone: that change is applied and persisted, with one event |
| ThemeToggle.SetThemeMakesSticky | assets/js/theme-toggle.js:41-46 | after `setTheme` with a non-empty value, every later system change is a no-op |
| ThemeToggle.EmptySetIsNotSticky | assets/js/theme-toggle.js:104-105 | after `setTheme("")` the stored value is falsy, so a system change still sets the theme |
| ThemeToggle.ThemeController.UpdateToggleIcon | assets/js/theme-toggle.js:60-80 | with the button and both icons present, the icons and label match the attribute; otherwise nothing changes |
| ThemeToggle.ThemeController.SetTheme | assets/js/theme-toggle.js:41-46 | sets the attribute and storage to the value, appends one event with it, and re-syncs the icons |
| ThemeToggle.ThemeController.Toggle | assets/js/theme-toggle.js:51-55 | sets the theme to the flip of the current attribute, through `SetTheme` |
| ThemeToggle.ThemeController.OnSystemChange | assets/js/theme-toggle.js:102-107 | with nothing truthy stored, applies and persists the new system theme; otherwise nothing changes, icons included |
| ThemeToggle.ThemeController.OnKey | assets/js/theme-toggle.js:128-133 | Enter or Space toggles the theme; any other key changes nothing |
| ThemeToggle.ThemeController.Init | assets/js/theme-toggle.js:139-153 | sets the attribute to the initial theme without writing storage, syncs the icons, registers the listeners whose targets exist and appends exactly one event with that theme |
| ThemeToggle.ThemeController.Get | assets/js/theme-toggle.js:161 | returns the current attribute |
| ThemeToggle.ThemeController.IsDark | assets/js/theme-toggle.js:162 | true exactly when the attribute is `dark` |
| ThemeToggle.ThemeController.IsLight | assets/js/theme-toggle.js:163 | true exactly when the attribute is `light` |
| FaqToggle.Applied | assets/js/faq-toggle.js:3-26 | `aria-expanded` becomes the string form of the flag and reads back as that flag; each present panel, container and chevron agrees with the flag; missing elements keep their old state |
| FaqToggle.AppliedIdempotent | assets/js/faq-toggle.js:3-26 | applying the same expanded state twice equals applying it once |
| FaqToggle.AppliedOnConsistent | assets/js/faq-toggle.js:3-26 | re-applying an item's own state to an item that is already consistent changes nothing |
| FaqToggle.ClickResult | assets/js/faq-toggle.js:28-39 | after a click on `i`, item `i` is expanded iff its `aria-expanded` was not exactly `"true"`; item `i`'s `aria-expanded` becomes the string form of that flag; every other item has `aria-expanded` `"false"`; every item's panel, container and chevron agree with it |
| FaqToggle.AtMostOneExpanded | assets/js/faq-toggle.js:28-39 | after any click, from any state, the number of expanded items is 0 if the clicked one was open and 1 otherwise |
| FaqToggle.ClickTwice | assets/js/faq-toggle.js:28-39 | a second click on the same item restores its expanded flag and leaves every other item collapsed |
| FaqToggle.Accordion.constructor | assets/js/faq-toggle.js:1 | the accordion holds the page's toggle buttons in document order |
| FaqToggle.Accordion.SetExpandedState | assets/js/faq-toggle.js:3-26 | replaces button `j` by `Applied(old item, expanded)` and leaves every other button unchanged |
| FaqToggle.Accordion.Click | assets/js/faq-toggle.js:28-39 | the loop collapses every other button in place and then flips the clicked one; the new array is `ClickResult` of the old |

## Left out

- DOM lookup (`getElementById`, `querySelector`, `closest`, `aria-controls` resolution) is not modelled. Each element's presence is a boolean flag.
- `CustomEvent` construction, bubbling and listeners on the document are not modelled. A dispatch appends the theme to `events`.
- The `matchMedia` object and the `addEventListener`/`addListener` fallback are not modelled. The model has `hasMatchMedia`, `systemPrefersLight` and `OnSystemChange(matches)` instead.
- The model does not track the live system preference after load. `systemPrefersLight` is only read by `Init`.
- `DOMContentLoaded` timing and the `window.JackWebTheme` global are not modelled. The API's `toggle` and `set` are `Toggle` and `SetTheme`.
- `localStorage` failures (quota, permission) are not modelled. The code does not handle them, so in the model every write succeeds.
- CSS `display` strings are booleans in the model: `inline-flex` is shown and `none` is hidden.
- `preventDefault` on keydown is not modelled. The model assumes a key press causes no `click` of its own; `preventDefault` is what makes that true for a button, whose default action for Enter or Space is a click that would toggle a second time.
- If `init` ran twice, the code would register duplicate listeners. The model records only whether the listeners are registered.
- The FAQ model does not capture listener registration per button. A click is `Click(i)` on the button's index. Buttons are distinct elements, so the identity test `otherButton !== button` becomes `j != i`.
- The FAQ model assumes each button has its own panel and its own container. The code looks them up per button, so two buttons sharing an `aria-controls` target or an enclosing `.faq-item` would write the same element in turn, and the clicked button, written last, would decide its state. `ClickResult` and `Click` do not capture that sharing.

# Navbar theme and navigation state machine

A Dafny model of the only stateful logic in the Lifemonk landing site: the
`Navbar` component (`web_application/src/components/Navbar.jsx`). It covers:

- **The theme preference.** The values are `light`, `dark` and `system`, plus whatever other string storage happens to hold. The preference is read from `localStorage` at start-up and cycled by the theme button.
- **The apply effect.** It puts the resolved `light`/`dark` class on the document root and persists explicit choices.
- **The colour-scheme listener.** It is active only in `system` mode.
- **The "scrolled" flag** and **the mobile-menu flag**.
- **The scroll to a `#fragment` anchor** after every route change.

The browser is plain data:
- `localStorage` is a map from key to string.
- `matchMedia('(prefers-color-scheme: dark)').matches` is a boolean.
- The root `classList` is a set of strings.
- `getElementById` is a partial map from id to element.
- `scrollIntoView` and `window.scrollTo(0, 0)` are entries appended to a log of scroll calls.

Every event is a pure step on one immutable `Navbar.State` record. A step that changes the preference re-runs the apply and listener effects, in that order.

Files:
- `wrappers.dfy`: `Option` and `Result`.
- `browser.dfy`: the DOM and storage facilities. `classList.add` rejects the empty string and strings containing ASCII whitespace, as section 7.1 of the DOM Standard requires.
- `theme.dfy`: the pure preference rules.
- `navbar.dfy`: the state record, the effects, the event steps, the invariant `Consistent`, and a `Replay` method.

Behaviour kept as the code has it:
- `getItem('theme') || 'system'` treats a stored empty string like a missing one, so both start in `system`.
- Choosing `system` returns before the storage write. The previous explicit choice stays stored, so a reload after `dark` → `system` starts in `dark` again (`SystemChoiceLostOnReload`).
- An unrecognised stored string is added to the root verbatim, and the next press maps it to `light`. Its class is never removed, because the effect only removes `light` and `dark` (`UnknownClassSurvivesToggle`).
- A stored string containing whitespace makes `classList.add` throw during the first apply effect. `Mount` returns that error.
- The scrolled flag starts `false` even on a page that loads already scrolled. The handler only runs on the first scroll event.
- The logo link scrolls to the origin but does not close the dropdown. Of the links, only the dropdown's own close it.

After a route change the hash effect makes no scroll call for an empty fragment or for a fragment naming no element. Any reset to the top would belong to `ScrollToTop`, which is not part of this model.

## Model

| member | source | states |
|---|---|---|
| Theme.InitialTheme | web_application/src/components/Navbar.jsx:10-12 | The start-up preference is the stored value when it is non-empty, and `system` when nothing or `""` is stored; it is `system` exactly when storage is empty/missing or holds `system`, and it is never empty. |
| Theme.NextTheme | web_application/src/components/Navbar.jsx:55-58 | `light` goes to `dark`, `dark` to `system`, everything else to `light`; the result is always a recognised theme and always differs from the input, so every press re-renders. |
| Theme.NextFollowsCycle | web_application/src/components/Navbar.jsx:56 | On recognised themes the toggle is the successor in the fixed order light, dark, system. |
| Theme.ToggledFollowsCycle | web_application/src/components/Navbar.jsx:55-58 | After `n` presses from a recognised theme the preference is `n` places further round the cycle. |
| Theme.ThreeTogglesRestore | web_application/src/components/Navbar.jsx:55-58 | Three presses return any recognised theme to itself; only the number of presses mod 3 matters. |
| Theme.UnknownEntersCycleAtLight | web_application/src/components/Navbar.jsx:56 | From an unrecognised preference the first press gives `light`, and from then on the presses follow the cycle and never return to the unrecognised value. |
| Theme.SystemClass | web_application/src/components/Navbar.jsx:28-30 | `system` resolves to `dark` exactly when the OS prefers dark, otherwise to `light`. |
| Theme.ThemeIcon | web_application/src/components/Navbar.jsx:60-67 | The icon is Sun exactly for `light`, Moon exactly for `dark`, and Monitor for `system` and every other string. |
| Browser.ClassListAdd | web_application/src/components/Navbar.jsx:35 | Adding a class succeeds exactly for a non-empty, whitespace-free token. It then adds that token and nothing else. `""` fails with SyntaxError and a whitespace-bearing string with InvalidCharacterError. |
| Browser.GetItem | web_application/src/components/Navbar.jsx:11 | Reading a key gives a value exactly when the key is stored, and that value is the stored string; a missing key gives nothing (`null`). |
| Browser.GetElementById | web_application/src/components/Navbar.jsx:80 | The lookup finds an element exactly when the id is non-empty and present, and returns that element. |
| Navbar.ApplyTheme | web_application/src/components/Navbar.jsx:23-37 | Only `light`/`dark` are removed and the other classes are kept. `system` adds `dark` iff the OS prefers dark, else `light`, and leaves storage as it was. An explicit preference is added as a class and stored under `theme`, with other keys untouched. The effect fails exactly for a non-token explicit preference. |
| Navbar.ApplyThemeIdempotent | web_application/src/components/Navbar.jsx:23-37 | Running the apply effect twice gives the same result as running it once. |
| Navbar.SyncMediaListener | web_application/src/components/Navbar.jsx:39-53 | After the listener effect, a colour-scheme listener is registered exactly when the preference is `system`; nothing else changes. |
| Navbar.MediaChange | web_application/src/components/Navbar.jsx:43-49 | An OS change updates the signal. With a listener registered, the root's `light`/`dark` class becomes the new resolved one. Without a listener the root is untouched. Other classes are never touched. |
| Navbar.MediaChangeAgreesWithApply | web_application/src/components/Navbar.jsx:27-31 | In `system` mode the listener leaves the state exactly as re-running the apply and listener effects with the new OS signal would. |
| Navbar.ExplicitThemeIgnoresMedia | web_application/src/components/Navbar.jsx:40 | With an explicit preference an OS change leaves the root classes unchanged and the state consistent. |
| Navbar.HashScroll | web_application/src/components/Navbar.jsx:78-85 | At most one scroll call. There is one exactly when the hash is longer than one character and the hash minus its first character names an existing element. That call is a smooth scroll to that element. |
| Navbar.FragmentRoundTrip | web_application/src/components/Navbar.jsx:80-82 | A location with hash `#id` scrolls smoothly to the element with id `id` when it exists, and otherwise makes no call. |
| Navbar.OnLocation | web_application/src/components/Navbar.jsx:78-85 | A route change appends exactly the fragment scroll to the log and changes nothing else. |
| Navbar.Mount | web_application/src/components/Navbar.jsx:6-85 | Mounting fails exactly when the stored preference contains whitespace. Otherwise the preference is the start-up one, both flags are false, the state is consistent, and the log holds only the fragment scroll of the first location. Storage is unchanged when the preference is `system`, and no other storage key ever changes. Root classes other than `light`, `dark` and an explicit preference are kept as the document had them; with `system` even a `system` class is kept. |
| Navbar.ToggleTheme | web_application/src/components/Navbar.jsx:55-58 | A press moves the preference to its successor. The state stays consistent: the listener and root class follow the new preference, and an explicit new preference is stored. A press into `system` leaves storage exactly as it was, and no press touches any other storage key. Scroll/menu flags, the OS signal, the log and the non-theme classes are unchanged. |
| Navbar.ThreeTogglesRestoreExplicit | web_application/src/components/Navbar.jsx:55-58 | From a consistent `light` or `dark` state, three presses restore the whole state, storage included. |
| Navbar.ThreeTogglesFromSystem | web_application/src/components/Navbar.jsx:31-36 | From a consistent `system` state, three presses restore everything except storage, which then holds `dark`. |
| Navbar.ReloadRestoresExplicitTheme | web_application/src/components/Navbar.jsx:10-12 | Reloading with the storage of a consistent state holding an explicit preference mounts with that same preference, from any starting root and OS signal. The root then carries that preference's class, and `light`/`dark` exactly as the preference names them. |
| Navbar.SystemChoiceLostOnReload | web_application/src/components/Navbar.jsx:31-36 | Pressing from `dark` to `system` keeps `dark` in storage, so a reload starts in `dark`, not `system`. |
| Navbar.UnknownClassSurvivesToggle | web_application/src/components/Navbar.jsx:25 | A press from an unrecognised preference gives `light`. The unrecognised class stays on the root next to `light`. |
| Navbar.OnScroll | web_application/src/components/Navbar.jsx:14-20 | A scroll event sets the flag to `scrollY > 20` and changes nothing else. |
| Navbar.ToggleMenu | web_application/src/components/Navbar.jsx:116-117 | The menu button flips the open flag and changes nothing else. |
| Navbar.MenuButtonInvolution | web_application/src/components/Navbar.jsx:117 | Pressing the menu button twice returns to the original state. |
| Navbar.LatestScrollWins | web_application/src/components/Navbar.jsx:15-16 | The scrolled flag depends only on the most recent scroll event. |
| Navbar.FollowNavLink | web_application/src/components/Navbar.jsx:134-138 | Choosing a dropdown link closes the menu, then appends the fragment scroll of the new location. Nothing else changes. |
| Navbar.ClickLogo | web_application/src/components/Navbar.jsx:97 | The logo appends one scroll to the origin and leaves the menu flag and everything else as they were. |
| Navbar.Step | web_application/src/components/Navbar.jsx:14-138 | Every event preserves the invariant `Consistent` and only appends to the scroll log. |
| Navbar.RunPreservesConsistent | web_application/src/components/Navbar.jsx:23-53 | Any sequence of events from a consistent state ends in a consistent state. |
| Navbar.RunExtendsScrollLog | web_application/src/components/Navbar.jsx:78-97 | Over any sequence of events the scroll log only grows: the earlier log is a prefix of the later one. |
| Navbar.Replay | web_application/src/components/Navbar.jsx:14-138 | Replaying events one at a time gives the same state as the sequence semantics `Run`. That state is consistent and keeps the old log as a prefix. |

## Left out

- The `Lenis` smooth-scroll set-up and its `requestAnimationFrame` loop in `App.jsx`: a third-party library driven by floating-point easing.
- The route table, the `ScrollToTop` component and how react-router turns a link's `to` string into a location. Navigation events carry the resulting location.
- What React does after an effect throws. `Mount` reports the DOM error and the model stops there.
- Removal of the scroll and colour-scheme listeners when the component unmounts. The model has no unmount event.
- `localStorage` throwing: `getItem` in the start-up initializer when storage is blocked (SecurityError), and `setItem` on a full quota.
- Other tabs: `localStorage` is shared by every tab of the site, and another tab's Navbar writes the same `theme` key. The model has this instance as the only writer, so the storage part of `Consistent` and `ReloadRestoresExplicitTheme` hold only under that assumption.
- Rendering: class strings, framer-motion animations, lucide icon components, the `title` text and the static page content.
- Navbar.OnScroll: `scrollY` is a real number, not an IEEE double, so rounding of fractional scroll offsets is not modelled.

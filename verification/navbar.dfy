/** The state machine of the navigation bar component: the theme preference
    and how it is applied to the document root and persisted, the listener for
    OS colour-scheme changes, the "scrolled" flag, the mobile menu flag, and
    the scroll to a `#fragment` anchor after a route change.

    One immutable record holds the component's own state together with the
    browser state it reads and writes. Each user or browser event is a pure
    step on that record; a step that changes the preference re-runs the apply
    and listener effects, in that order. */
module Navbar {
  import opened Wrappers
  import opened Browser
  import opened Theme

  /** A scroll the component asked the browser for. */
  datatype ScrollCall =
    | SmoothScrollIntoView(target: Element)   // `elem.scrollIntoView({behavior: 'smooth'})`
    | ScrollToOrigin                          // `window.scrollTo(0, 0)`

  /** A router location; only the fragment (`""` or `"#..."`) is read here. */
  datatype Location = Location(pathname: string, hash: string)

  datatype State = State(
    theme: string,                // the preference held in component state
    isScrolled: bool,
    menuOpen: bool,
    mediaListener: bool,          // a colour-scheme `change` listener is registered
    storage: Storage,             // `localStorage`
    rootClasses: set<string>,     // `document.documentElement.classList`
    prefersDark: bool,            // `matchMedia('(prefers-color-scheme: dark)').matches`
    scrolls: seq<ScrollCall>)     // scroll calls made so far, oldest first

  /** The two classes the theme logic owns on the root element. */
  const ThemeClasses: set<string> := {Light, Dark}

  /** The theme-apply effect. It drops `light` and `dark` from the root; for
      `system` it adds the class the OS signal selects and stops there, leaving
      storage as it was; otherwise it adds the preference itself as a class
      (which throws for a string that is not a valid token) and then stores it
      under `theme`. */
  function ApplyTheme(s: State): (r: Result<State, DomError>)
    ensures r.Failure? <==> s.theme != System && !IsToken(s.theme)
    ensures IsKnown(s.theme) ==> r.Success?
    ensures r.Success? && s.theme == System ==>
      && (Dark in r.value.rootClasses <==> s.prefersDark)
      && (Light in r.value.rootClasses <==> !s.prefersDark)
      && r.value.storage == s.storage
    ensures r.Success? && s.theme != System ==>
      && s.theme in r.value.rootClasses
      && (Light in r.value.rootClasses <==> s.theme == Light)
      && (Dark in r.value.rootClasses <==> s.theme == Dark)
      && GetItem(r.value.storage, ThemeKey) == Some(s.theme)
      && (forall k :: k != ThemeKey ==> GetItem(r.value.storage, k) == GetItem(s.storage, k))
    ensures r.Success? ==> forall c :: c !in ThemeClasses && c != s.theme ==>
      (c in r.value.rootClasses <==> c in s.rootClasses)
    ensures r.Success? && s.theme == System ==> (System in r.value.rootClasses <==> System in s.rootClasses)
    ensures r.Success? ==> r.value.(rootClasses := s.rootClasses, storage := s.storage) == s
  {
    var cleared := s.rootClasses - ThemeClasses;
    if s.theme == System then
      Success(s.(rootClasses := cleared + {SystemClass(s.prefersDark)}))
    else
      match ClassListAdd(cleared, s.theme)
      case Failure(e) => Failure(e)
      case Success(classes) =>
        Success(s.(rootClasses := classes, storage := s.storage[ThemeKey := s.theme]))
  }

  /** The listener effect: a colour-scheme listener exists exactly while the
      preference is `system`; changing away from `system` removes it. */
  function SyncMediaListener(s: State): (r: State)
    ensures r.mediaListener <==> s.theme == System
    ensures r.(mediaListener := s.mediaListener) == s
  {
    s.(mediaListener := s.theme == System)
  }

  /** The fragment effect: for a non-empty hash, the element whose id is the
      hash minus its first character is scrolled to smoothly, if it exists. */
  function HashScroll(hash: string, elements: map<string, Element>): (r: seq<ScrollCall>)
    ensures |r| <= 1
    ensures |r| == 1 <==> |hash| >= 2 && hash[1..] in elements
    ensures |r| == 1 ==> r[0] == SmoothScrollIntoView(elements[hash[1..]])
  {
    if hash == "" then []
    else
      match GetElementById(elements, hash[1..])
      case None => []
      case Some(elem) => [SmoothScrollIntoView(elem)]
  }

  /** The fragment effect run on a location change. */
  function OnLocation(s: State, to: Location, elements: map<string, Element>): (r: State)
    ensures r.scrolls == s.scrolls + HashScroll(to.hash, elements)
    ensures r.(scrolls := s.scrolls) == s
  {
    s.(scrolls := s.scrolls + HashScroll(to.hash, elements))
  }

  /** What holds of the mounted component between events: the listener is
      registered iff the preference is `system`; the root carries exactly the
      resolved `light`/`dark` class (none for an unrecognised preference, which
      is on the root itself); an explicit preference is what storage holds. */
  predicate Consistent(s: State) {
    && (s.mediaListener <==> s.theme == System)
    && (s.theme == System ==>
          (Dark in s.rootClasses <==> s.prefersDark) && (Light in s.rootClasses <==> !s.prefersDark))
    && (s.theme != System ==>
          && IsToken(s.theme)
          && s.theme in s.rootClasses
          && (Light in s.rootClasses <==> s.theme == Light)
          && (Dark in s.rootClasses <==> s.theme == Dark)
          && GetItem(s.storage, ThemeKey) == Some(s.theme))
  }

  /** Mounting: the preference starts from storage, both flags start false
      (the scroll handler has not run yet), and the effects run in order:
      apply, listener, fragment. The apply effect throws, and the component
      does not mount, when the stored preference contains whitespace. */
  function Mount(storage: Storage, rootClasses: set<string>, prefersDark: bool,
                 at: Location, elements: map<string, Element>): (r: Result<State, DomError>)
    ensures r.Failure? <==>
      ThemeKey in storage && storage[ThemeKey] != System && HasWhitespace(storage[ThemeKey])
    ensures r.Success? ==>
      && Consistent(r.value)
      && r.value.theme == InitialTheme(GetItem(storage, ThemeKey))
      && !r.value.isScrolled && !r.value.menuOpen
      && r.value.prefersDark == prefersDark
      && r.value.scrolls == HashScroll(at.hash, elements)
    ensures r.Success? && r.value.theme == System ==> r.value.storage == storage
    ensures r.Success? ==> forall k :: k != ThemeKey ==> GetItem(r.value.storage, k) == GetItem(storage, k)
    ensures r.Success? ==> forall c :: c !in ThemeClasses && c != r.value.theme ==>
      (c in r.value.rootClasses <==> c in rootClasses)
    ensures r.Success? && r.value.theme == System ==> (System in r.value.rootClasses <==> System in rootClasses)
  {
    var s0 := State(InitialTheme(GetItem(storage, ThemeKey)), false, false, false,
                    storage, rootClasses, prefersDark, []);
    match ApplyTheme(s0)
    case Failure(e) => Failure(e)
    case Success(s1) => Success(OnLocation(SyncMediaListener(s1), at, elements))
  }

  /** The theme button: the preference advances, and since it always changes
      the apply and listener effects run again. */
  function ToggleTheme(s: State): (r: State)
    ensures r.theme == NextTheme(s.theme)
    ensures Consistent(r)
    ensures r.isScrolled == s.isScrolled && r.menuOpen == s.menuOpen
    ensures r.prefersDark == s.prefersDark && r.scrolls == s.scrolls
    ensures forall c :: c !in ThemeClasses ==> (c in r.rootClasses <==> c in s.rootClasses)
    ensures NextTheme(s.theme) == System ==> r.storage == s.storage
    ensures forall k :: k != ThemeKey ==> GetItem(r.storage, k) == GetItem(s.storage, k)
  {
    var applied := ApplyTheme(s.(theme := NextTheme(s.theme)));
    SyncMediaListener(applied.value)
  }

  /** The OS colour scheme changed. Only a registered listener touches the
      root, replacing its `light`/`dark` class with the new resolved one. */
  function MediaChange(s: State, prefersDark: bool): (r: State)
    ensures r.prefersDark == prefersDark
    ensures s.mediaListener ==>
      (Dark in r.rootClasses <==> prefersDark) && (Light in r.rootClasses <==> !prefersDark)
    ensures forall c :: c !in ThemeClasses ==> (c in r.rootClasses <==> c in s.rootClasses)
    ensures !s.mediaListener ==> r.rootClasses == s.rootClasses
    ensures r.(prefersDark := s.prefersDark, rootClasses := s.rootClasses) == s
  {
    var s1 := s.(prefersDark := prefersDark);
    if s.mediaListener then
      s1.(rootClasses := (s.rootClasses - ThemeClasses) + {SystemClass(prefersDark)})
    else s1
  }

  /** A window scroll event: the bar counts as scrolled strictly past 20 pixels. */
  function OnScroll(s: State, scrollY: real): (r: State)
    ensures r.isScrolled <==> scrollY > 20.0
    ensures r.(isScrolled := s.isScrolled) == s
  {
    s.(isScrolled := scrollY > 20.0)
  }

  /** The menu button flips the dropdown. */
  function ToggleMenu(s: State): (r: State)
    ensures r.menuOpen == !s.menuOpen
    ensures r.(menuOpen := s.menuOpen) == s
  {
    s.(menuOpen := !s.menuOpen)
  }

  /** Choosing a link in the dropdown closes it, then the router moves to the
      link's location and the fragment effect runs. */
  function FollowNavLink(s: State, to: Location, elements: map<string, Element>): (r: State)
    ensures !r.menuOpen
    ensures r.scrolls == s.scrolls + HashScroll(to.hash, elements)
    ensures r.(menuOpen := s.menuOpen, scrolls := s.scrolls) == s
  {
    OnLocation(s.(menuOpen := false), to, elements)
  }

  /** The logo: scroll the window to the origin, then route to `/`, whose
      empty fragment scrolls nowhere. The dropdown is left as it was. */
  function ClickLogo(s: State, elements: map<string, Element>): (r: State)
    ensures r.scrolls == s.scrolls + [ScrollToOrigin]
    ensures r.menuOpen == s.menuOpen
    ensures r.(scrolls := s.scrolls) == s
  {
    OnLocation(s.(scrolls := s.scrolls + [ScrollToOrigin]), Location("/", ""), elements)
  }

  /** Running the apply effect a second time changes nothing. */
  lemma ApplyThemeIdempotent(s: State)
    requires ApplyTheme(s).Success?
    ensures ApplyTheme(ApplyTheme(s).value) == ApplyTheme(s)
  {
    var once := ApplyTheme(s).value;
    var twice := ApplyTheme(once).value;
    assert twice.rootClasses == once.rootClasses;
    if s.theme != System {
      assert ThemeKey in once.storage && once.storage[ThemeKey] == s.theme;
      assert twice.storage == once.storage;
    }
  }

  /** While the preference is `system`, the listener leaves the root exactly
      as re-running the apply effect with the new OS signal would. */
  lemma MediaChangeAgreesWithApply(s: State, prefersDark: bool)
    requires Consistent(s) && s.theme == System
    ensures ApplyTheme(s.(prefersDark := prefersDark)).Success?
    ensures MediaChange(s, prefersDark) ==
            SyncMediaListener(ApplyTheme(s.(prefersDark := prefersDark)).value)
  {
  }

  /** With an explicit preference the OS signal never reaches the root. */
  lemma ExplicitThemeIgnoresMedia(s: State, prefersDark: bool)
    requires Consistent(s) && s.theme != System
    ensures MediaChange(s, prefersDark).rootClasses == s.rootClasses
    ensures Consistent(MediaChange(s, prefersDark))
  {
  }

  /** Reloading the page restores an explicit preference from storage: whatever
      root the served document starts with and whatever the OS prefers, the
      mounted root carries that preference's class and the matching
      `light`/`dark` class only. */
  lemma ReloadRestoresExplicitTheme(s: State, root: set<string>, prefersDark: bool,
                                    at: Location, elements: map<string, Element>)
    requires Consistent(s) && s.theme != System
    ensures Mount(s.storage, root, prefersDark, at, elements).Success?
    ensures Mount(s.storage, root, prefersDark, at, elements).value.theme == s.theme
    ensures s.theme in Mount(s.storage, root, prefersDark, at, elements).value.rootClasses
    ensures Light in Mount(s.storage, root, prefersDark, at, elements).value.rootClasses <==> s.theme == Light
    ensures Dark in Mount(s.storage, root, prefersDark, at, elements).value.rootClasses <==> s.theme == Dark
  {
  }

  /** Choosing `system` after `dark` is not remembered: storage still says
      `dark`, so a reload starts in `dark` again. */
  lemma SystemChoiceLostOnReload(s: State, at: Location, elements: map<string, Element>)
    requires Consistent(s) && s.theme == Dark
    ensures ToggleTheme(s).theme == System
    ensures GetItem(ToggleTheme(s).storage, ThemeKey) == Some(Dark)
    ensures Mount(ToggleTheme(s).storage, ToggleTheme(s).rootClasses, s.prefersDark, at, elements).Success?
    ensures Mount(ToggleTheme(s).storage, ToggleTheme(s).rootClasses, s.prefersDark, at, elements).value.theme == Dark
  {
  }

  /** An unrecognised stored preference goes to `light` on the next press,
      but its class stays on the root: only `light` and `dark` are removed. */
  lemma UnknownClassSurvivesToggle(s: State)
    requires Consistent(s) && !IsKnown(s.theme)
    ensures ToggleTheme(s).theme == Light
    ensures s.theme in ToggleTheme(s).rootClasses
    ensures Light in ToggleTheme(s).rootClasses && Dark !in ToggleTheme(s).rootClasses
  {
  }

  /** Three presses from an explicit `light` or `dark` restore the whole state. */
  lemma ThreeTogglesRestoreExplicit(s: State)
    requires Consistent(s) && (s.theme == Light || s.theme == Dark)
    ensures ToggleTheme(ToggleTheme(ToggleTheme(s))) == s
  {
  }

  /** Three presses from `system` restore everything but storage, which now
      holds `dark`, the last explicit preference passed through. */
  lemma ThreeTogglesFromSystem(s: State)
    requires Consistent(s) && s.theme == System
    ensures ToggleTheme(ToggleTheme(ToggleTheme(s))).(storage := s.storage) == s
    ensures GetItem(ToggleTheme(ToggleTheme(ToggleTheme(s))).storage, ThemeKey) == Some(Dark)
  {
  }

  /** A link to `#id` scrolls to the element with id `id`, when there is one. */
  lemma FragmentRoundTrip(id: string, elements: map<string, Element>)
    ensures HashScroll("#" + id, elements) ==
            (if id != "" && id in elements then [SmoothScrollIntoView(elements[id])] else [])
  {
  }

  /** Two presses of the menu button leave the state as it was. */
  lemma MenuButtonInvolution(s: State)
    ensures ToggleMenu(ToggleMenu(s)) == s
  {
  }

  /** Only the latest scroll position decides the flag. */
  lemma LatestScrollWins(s: State, first: real, second: real)
    ensures OnScroll(OnScroll(s, first), second) == OnScroll(s, second)
  {
  }

  /** The events the mounted component reacts to. */
  datatype Event =
    | ThemeButton
    | ColorSchemeChange(prefersDark: bool)
    | WindowScroll(scrollY: real)
    | MenuButton
    // The dropdown's links render only while it is open; a click while it is
    // closed is allowed here, which only widens what the lemmas cover.
    | NavLink(to: Location, elements: map<string, Element>)
    | LogoClick(elements: map<string, Element>)
    | Navigated(to: Location, elements: map<string, Element>)   // any other route change

  function Step(s: State, e: Event): (r: State)
    ensures Consistent(s) ==> Consistent(r)
    ensures |s.scrolls| <= |r.scrolls| && r.scrolls[..|s.scrolls|] == s.scrolls
  {
    match e
    case ThemeButton => ToggleTheme(s)
    case ColorSchemeChange(d) => MediaChange(s, d)
    case WindowScroll(y) => OnScroll(s, y)
    case MenuButton => ToggleMenu(s)
    case NavLink(to, els) => FollowNavLink(s, to, els)
    case LogoClick(els) => ClickLogo(s, els)
    case Navigated(to, els) => OnLocation(s, to, els)
  }

  /** The state after a sequence of events, applied oldest first. */
  function Run(s: State, events: seq<Event>): State
    decreases |events|
  {
    if events == [] then s else Step(Run(s, events[..|events| - 1]), events[|events| - 1])
  }

  /** Every reachable state of a consistently mounted component is consistent. */
  lemma {:induction false} RunPreservesConsistent(s: State, events: seq<Event>)
    requires Consistent(s)
    ensures Consistent(Run(s, events))
    decreases |events|
  {
    if events != [] {
      RunPreservesConsistent(s, events[..|events| - 1]);
    }
  }

  /** The scroll log only grows: the earlier log is a prefix of the later one. */
  lemma {:induction false} RunExtendsScrollLog(s: State, events: seq<Event>)
    ensures |s.scrolls| <= |Run(s, events).scrolls|
    ensures Run(s, events).scrolls[..|s.scrolls|] == s.scrolls
    decreases |events|
  {
    if events != [] {
      var prefix := events[..|events| - 1];
      RunExtendsScrollLog(s, prefix);
      var p := Run(s, prefix);
      assert Run(s, events).scrolls[..|p.scrolls|] == p.scrolls;
    }
  }

  /** Drives the mounted component through `events`. */
  method Replay(s0: State, events: seq<Event>) returns (s: State)
    requires Consistent(s0)
    ensures s == Run(s0, events)
    ensures Consistent(s)
    ensures |s0.scrolls| <= |s.scrolls| && s.scrolls[..|s0.scrolls|] == s0.scrolls
  {
    s := s0;
    var i := 0;
    while i < |events|
      invariant 0 <= i <= |events|
      invariant s == Run(s0, events[..i])
      invariant Consistent(s)
      invariant |s0.scrolls| <= |s.scrolls| && s.scrolls[..|s0.scrolls|] == s0.scrolls
    {
      assert events[..i + 1][..i] == events[..i];
      s := Step(s, events[i]);
      i := i + 1;
    }
    assert events[..i] == events;
  }
}

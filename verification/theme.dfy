/** The theme preference of the navigation bar: its three recognised values,
    the value chosen at start-up, the toggle order, the class a preference
    resolves to, and the icon shown for it. A preference is a plain string,
    because whatever string storage holds is taken as the preference. */
module Theme {
  import opened Wrappers

  const Light: string := "light"
  const Dark: string := "dark"
  const System: string := "system"

  /** The storage key the preference is kept under. */
  const ThemeKey: string := "theme"

  predicate IsKnown(t: string) {
    t == Light || t == Dark || t == System
  }

  /** Start-up preference: the stored value, unless it is missing or empty
      (both falsy in `getItem(..) || 'system'`), in which case `system`. */
  function InitialTheme(stored: Option<string>): (t: string)
    ensures t != ""
    ensures stored.Some? && stored.value != "" ==> t == stored.value
    ensures t == System <==> stored.None? || stored.value == "" || stored.value == System
  {
    match stored
    case Some(v) => if v != "" then v else System
    case None => System
  }

  /** The theme button: `light` to `dark`, `dark` to `system`, anything else
      (`system` or an unrecognised stored string) to `light`. */
  function NextTheme(t: string): (r: string)
    ensures IsKnown(r)
    ensures r != t
    ensures t == Light ==> r == Dark
    ensures t == Dark ==> r == System
    ensures t != Light && t != Dark ==> r == Light
  {
    if t == Light then Dark else if t == Dark then System else Light
  }

  /** Reference order of the toggle cycle. */
  const Cycle: seq<string> := [Light, Dark, System]

  function CycleIndex(t: string): (i: nat)
    requires IsKnown(t)
    ensures i < 3 && Cycle[i] == t
  {
    if t == Light then 0 else if t == Dark then 1 else 2
  }

  /** The toggle is the successor in `Cycle` on the recognised themes. */
  lemma NextFollowsCycle(t: string)
    requires IsKnown(t)
    ensures NextTheme(t) == Cycle[(CycleIndex(t) + 1) % 3]
  {
  }

  /** The preference after pressing the theme button `n` times. */
  function Toggled(t: string, n: nat): (r: string)
    ensures n > 0 ==> IsKnown(r)
  {
    if n == 0 then t else NextTheme(Toggled(t, n - 1))
  }

  /** From a recognised theme, `n` presses advance `n` places around `Cycle`. */
  lemma {:induction false} ToggledFollowsCycle(t: string, n: nat)
    requires IsKnown(t)
    ensures Toggled(t, n) == Cycle[(CycleIndex(t) + n) % 3]
  {
    if n > 0 {
      ToggledFollowsCycle(t, n - 1);
      var p := Toggled(t, n - 1);
      NextFollowsCycle(p);
      assert CycleIndex(p) == (CycleIndex(t) + n - 1) % 3;
    }
  }

  /** Three presses bring any recognised theme back; only the count mod 3 matters. */
  lemma ThreeTogglesRestore(t: string, n: nat)
    requires IsKnown(t)
    ensures Toggled(t, 3) == t
    ensures Toggled(t, n) == Toggled(t, n % 3)
  {
    ToggledFollowsCycle(t, 3);
    ToggledFollowsCycle(t, n);
    ToggledFollowsCycle(t, n % 3);
  }

  /** An unrecognised preference enters the cycle at `light` and never returns. */
  lemma {:induction false} UnknownEntersCycleAtLight(t: string, n: nat)
    requires !IsKnown(t) && n > 0
    ensures Toggled(t, n) == Cycle[(n - 1) % 3]
    ensures Toggled(t, n) != t
  {
    if n == 1 {
    } else {
      UnknownEntersCycleAtLight(t, n - 1);
      NextFollowsCycle(Toggled(t, n - 1));
    }
  }

  /** The class the `system` preference resolves to from the OS dark-mode signal. */
  function SystemClass(prefersDark: bool): (c: string)
    ensures c == Dark <==> prefersDark
    ensures c == Light <==> !prefersDark
  {
    if prefersDark then Dark else Light
  }

  datatype Icon = Sun | Moon | Monitor

  /** The button icon; `Monitor` for `system` and for every unrecognised value. */
  function ThemeIcon(t: string): (i: Icon)
    ensures i == Sun <==> t == Light
    ensures i == Moon <==> t == Dark
    ensures i == Monitor <==> t != Light && t != Dark
  {
    if t == Light then Sun else if t == Dark then Moon else Monitor
  }
}

/** The colour theme of the front end (`useTheme`): three named palettes, an
    `auto` mode that picks one from the hour of the day, and the current
    theme's state. The page itself is represented by the name of the palette
    last applied to it. */
module Theme {
  import opened Common

  /** A palette: its display name and its colour variables. */
  datatype Palette = Palette(name: string, colors: map<string, string>)

  const Themes: map<string, Palette> := map[
    "light" := Palette("Día", map[
      "primary" := "#6366F1", "secondary" := "#8B5CF6", "accent" := "#EC4899",
      "background" := "#F9FAFB", "surface" := "#FFFFFF", "text" := "#111827",
      "textSecondary" := "#6B7280", "border" := "#E5E7EB", "success" := "#10B981",
      "warning" := "#F59E0B", "danger" := "#EF4444"]),
    "dark" := Palette("Noche", map[
      "primary" := "#818CF8", "secondary" := "#A78BFA", "accent" := "#F472B6",
      "background" := "#111827", "surface" := "#1F2937", "text" := "#F9FAFB",
      "textSecondary" := "#9CA3AF", "border" := "#374151", "success" := "#34D399",
      "warning" := "#FBBF24", "danger" := "#F87171"]),
    "sunset" := Palette("Atardecer", map[
      "primary" := "#F59E0B", "secondary" := "#EF4444", "accent" := "#EC4899",
      "background" := "#FEF3C7", "surface" := "#FEF9E7", "text" := "#78350F",
      "textSecondary" := "#92400E", "border" := "#FDE68A", "success" := "#10B981",
      "warning" := "#F59E0B", "danger" := "#DC2626"])]

  /** `new Date().getHours()`. */
  type Hour = h: nat | h < 24

  /** `getAutoTheme`: light by day, sunset in the evening, dark at night. */
  function GetAutoTheme(hour: Hour): (r: string)
    ensures r in Themes
    ensures r == "light" <==> 6 <= hour < 18
    ensures r == "sunset" <==> 18 <= hour < 20
    ensures r == "dark" <==> hour < 6 || 20 <= hour
  {
    if 6 <= hour < 12 then "light"
    else if 12 <= hour < 18 then "light"
    else if 18 <= hour < 20 then "sunset"
    else "dark"
  }

  /** What the composable's state says: the `currentTheme` ref, and the
      palette last applied to the page. */
  datatype View = View(current: string, applied: Option<string>)

  /** `applyTheme`: an unknown name changes nothing; a known one is applied
      and becomes the current theme. */
  function Apply(v: View, name: string): (r: View)
    ensures name !in Themes ==> r == v
    ensures name in Themes ==> r.current == name && r.applied == Some(name)
  {
    if name in Themes then View(name, Some(name)) else v
  }

  /** `setTheme`: `auto` applies the theme of the hour; then the current
      theme is the name asked for, `auto` included. */
  function SetTheme(v: View, name: string, hour: Hour): (r: View)
    ensures r.current == name
    ensures name == "auto" ==> r.applied == Some(GetAutoTheme(hour))
    ensures name != "auto" && name in Themes ==> r.applied == Some(name)
    ensures name != "auto" && name !in Themes ==> r.applied == v.applied
  {
    Apply(v, if name == "auto" then GetAutoTheme(hour) else name).(current := name)
  }

  /** Asking for the same theme twice at the same hour is asking once. */
  lemma SetThemeIdempotent(v: View, name: string, hour: Hour)
    ensures SetTheme(SetTheme(v, name, hour), name, hour) == SetTheme(v, name, hour)
  {
  }

  /** `initTheme`: the saved theme, or `auto` when none (or an empty one)
      is saved. */
  function InitialName(saved: Option<string>): (r: string)
    ensures r != ""
    ensures saved.Some? && saved.value != "" ==> r == saved.value
    ensures saved.None? || saved.value == "" ==> r == "auto"
  {
    if saved.Some? && saved.value != "" then saved.value else "auto"
  }

  /** The callback the `auto` mode runs every minute, as written: it calls
      `applyTheme`, which also sets `currentTheme` to the resolved palette. */
  function AutoTickAsWritten(v: View, hour: Hour): View {
    Apply(v, GetAutoTheme(hour))
  }

  /** As written, the first tick leaves `auto` mode: `currentTheme` becomes a
      palette name, so the watcher clears the interval and later hours no
      longer change the palette. */
  lemma AutoTickLeavesAutoMode(v: View, setAt: Hour, tick: Hour)
    ensures SetTheme(v, "auto", setAt).current == "auto"
    ensures AutoTickAsWritten(SetTheme(v, "auto", setAt), tick).current != "auto"
    ensures AutoTickAsWritten(SetTheme(v, "auto", setAt), tick).current == GetAutoTheme(tick)
  {
  }

  /** The tick as `auto` mode means it: re-apply the palette of the hour and
      stay in `auto`. */
  function AutoTick(v: View, hour: Hour): (r: View)
    ensures r.applied == Some(GetAutoTheme(hour))
    ensures r.current == v.current
  {
    View(v.current, Some(GetAutoTheme(hour)))
  }

  /** With the corrected tick, `auto` mode follows the hour on every tick. */
  lemma {:induction false} AutoModeFollowsTheHour(v: View, setAt: Hour, ticks: seq<Hour>)
    requires |ticks| > 0
    ensures Ticks(SetTheme(v, "auto", setAt), ticks).current == "auto"
    ensures Ticks(SetTheme(v, "auto", setAt), ticks).applied == Some(GetAutoTheme(ticks[|ticks| - 1]))
  {
    if |ticks| > 1 {
      AutoModeFollowsTheHour(v, setAt, ticks[..|ticks| - 1]);
    }
  }

  /** Running the corrected tick at each hour in turn. */
  function Ticks(v: View, ticks: seq<Hour>): View {
    if ticks == [] then v else AutoTick(Ticks(v, ticks[..|ticks| - 1]), ticks[|ticks| - 1])
  }

  /** The module-level `currentTheme` ref and the page's palette. */
  class ThemeState {
    var currentTheme: string
    var applied: Option<string>

    function State(): View
      reads this
    {
      View(currentTheme, applied)
    }

    /** The ref starts from the saved theme, or `auto`; nothing is applied
        until `initTheme` or `setTheme` runs. */
    constructor (saved: Option<string>)
      ensures currentTheme == InitialName(saved) && applied == None
    {
      currentTheme := InitialName(saved);
      applied := None;
    }

    /** `applyTheme`. */
    method ApplyTheme(name: string)
      modifies this
      ensures State() == Apply(old(State()), name)
    {
      if name in Themes {
        applied := Some(name);
        currentTheme := name;
      }
    }

    /** `setTheme`, at the given hour. */
    method SetThemeAt(name: string, hour: Hour)
      modifies this
      ensures State() == SetTheme(old(State()), name, hour)
    {
      if name == "auto" {
        ApplyTheme(GetAutoTheme(hour));
      } else {
        ApplyTheme(name);
      }
      currentTheme := name;
    }

    /** `initTheme`: `setTheme` of the saved theme, or of `auto`. */
    method InitTheme(saved: Option<string>, hour: Hour)
      modifies this
      ensures State() == SetTheme(old(State()), InitialName(saved), hour)
    {
      SetThemeAt(InitialName(saved), hour);
    }
  }
}

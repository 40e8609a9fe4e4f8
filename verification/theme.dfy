/** contexts/ThemeContext.tsx: how the provider turns the user's theme
    choice and the device's scheme into a colour scheme and a palette. */
module Theme {
  import opened Wrappers

  datatype ThemeChoice = Light | Dark | Auto

  datatype Scheme = LightScheme | DarkScheme

  datatype Palette = Palette(
    background: string,
    surface: string,
    primary: string,
    secondary: string,
    accent: string,
    text: string,
    textSecondary: string,
    border: string,
    success: string,
    warning: string,
    error: string,
    tabBar: string,
    tabBarActive: string)

  const LightColors: Palette := Palette(
    "#FFFFFF", "#F8FAFC", "#f97316", "#14B8A6", "#F97316", "#1E293B", "#64748B",
    "#E2E8F0", "#10B981", "#F59E0B", "#EF4444", "#FFFFFF", "#ef4444")

  const DarkColors: Palette := Palette(
    "#0F172A", "#1E293B", "#f97316", "#2DD4BF", "#FB923C", "#F1F5F9", "#94A3B8",
    "#334155", "#34D399", "#FBBF24", "#F87171", "#1E293B", "#ef4444")

  /** `useState<Theme>('auto')`. */
  const InitialTheme: ThemeChoice := Auto

  /** The provider's `colorScheme`. The device scheme is absent when
      `useColorScheme()` gives `null` or `undefined`. */
  function ColorScheme(theme: ThemeChoice, system: Option<Scheme>): (r: Scheme)
    ensures theme == Dark ==> r == DarkScheme
    ensures theme == Light ==> r == LightScheme
    ensures theme == Auto && system.Some? ==> r == system.value
    ensures theme == Auto && system.None? ==> r == LightScheme
  {
    if theme == Auto then system.GetOr(LightScheme)
    else if theme == Dark then DarkScheme
    else LightScheme
  }

  /** The provider's `colors`. */
  function Colors(scheme: Scheme): (r: Palette)
    ensures r == DarkColors <==> scheme == DarkScheme
    ensures r == LightColors <==> scheme == LightScheme
  {
    PalettesDiffer();
    match scheme
    case DarkScheme => DarkColors
    case LightScheme => LightColors
  }

  lemma PalettesDiffer()
    ensures LightColors != DarkColors
  {
    assert LightColors.background[1] == 'F' && DarkColors.background[1] == '0';
  }

  /** The screen is dark exactly when the user chose dark, or left the
      choice on automatic while the device is dark. */
  lemma DarkExactly(theme: ThemeChoice, system: Option<Scheme>)
    ensures Colors(ColorScheme(theme, system)) == DarkColors <==>
      theme == Dark || (theme == Auto && system == Some(DarkScheme))
  {
  }

  /** An explicit choice ignores the device; the initial choice follows it. */
  lemma ExplicitChoiceIgnoresDevice(theme: ThemeChoice, a: Option<Scheme>, b: Option<Scheme>)
    ensures theme != Auto ==> ColorScheme(theme, a) == ColorScheme(theme, b)
    ensures ColorScheme(InitialTheme, a) == a.GetOr(LightScheme)
  {
  }

  /** The brand colour and the active tab colour do not depend on the scheme. */
  lemma SharedColors(s: Scheme, t: Scheme)
    ensures Colors(s).primary == Colors(t).primary
    ensures Colors(s).tabBarActive == Colors(t).tabBarActive
  {
  }
}

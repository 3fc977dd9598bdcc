/** The theme toggle button (src/app/shared/components/theme-toggle/theme-toggle.ts). */
module ThemeToggling {
  import opened Theme

  /** The cycle `toggleTheme` follows: system, light, dark, system. */
  function NextMode(m: ThemeMode): (n: ThemeMode)
    ensures n != m
  {
    match m
    case System => Light
    case Light => Dark
    case Dark => System
  }

  lemma ThreeTogglesReturn(m: ThemeMode)
    ensures NextMode(NextMode(NextMode(m))) == m
  {
  }

  /**
   * `ariaLabel`.  The `default` case of the source's switch cannot be
   * reached with three modes, so it has no counterpart here.  Every label
   * names the mode the next toggle moves to.
   */
  function AriaLabelFor(mode: ThemeMode, isDark: bool): (text: string)
    ensures "Switch to " + ModeName(NextMode(mode)) + " theme" <= text
    ensures mode == System <==> text != "Switch to " + ModeName(NextMode(mode)) + " theme"
    ensures mode == System ==>
      text == "Switch to light theme" + " (currently following system: " + ModeName(if isDark then Dark else Light) + ")"
  {
    match mode
    case Light => "Switch to dark theme"
    case Dark => "Switch to system theme"
    case System =>
      var head := "Switch to light theme";
      var text := head + " (currently following system: " + ModeName(if isDark then Dark else Light) + ")";
      assert text[..|head|] == head;
      assert |text| > |head|;
      text
  }

  /** Outside system mode the label ignores the effective theme; in system mode it tells the two apart. */
  lemma LabelDependsOnDarkOnlyInSystemMode(mode: ThemeMode)
    ensures AriaLabelFor(mode, true) != AriaLabelFor(mode, false) <==> mode == System
  {
  }

  /** `systemIcon`: set by the constructor on the browser only. */
  function SystemIcon(isBrowser: bool, isMobile: bool): string
  {
    if !isBrowser then ""
    else if isMobile then "eva-smartphone-outline"
    else "eva-monitor-outline"
  }

  class ThemeToggle {
    const themeService: ThemeService
    var systemIcon: string

    /** `isMobile` is the result of the `(max-width: 640px)` media query. */
    constructor (themeService: ThemeService, isBrowser: bool, isMobile: bool)
      ensures this.themeService == themeService
      ensures systemIcon == SystemIcon(isBrowser, isMobile)
    {
      this.themeService := themeService;
      if isBrowser {
        systemIcon := if isMobile then "eva-smartphone-outline" else "eva-monitor-outline";
      } else {
        systemIcon := "";
      }
    }

    function AriaLabel(): string
      reads this, themeService
    {
      AriaLabelFor(themeService.mode, themeService.EffectiveDark())
    }

    /** `toggleTheme`: the mode moves to the one the label announced. */
    method ToggleTheme()
      modifies themeService`mode
      ensures themeService.mode == NextMode(old(themeService.mode))
      ensures themeService.osPrefersDark == old(themeService.osPrefersDark)
    {
      match themeService.mode {
        case System => themeService.SetMode(Light);
        case Light => themeService.SetMode(Dark);
        case Dark => themeService.SetMode(System);
      }
    }
  }
}

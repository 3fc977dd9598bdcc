/** The theme service (src/app/core/services/theme-service.ts). */
module Theme {
  import opened Wrappers

  /** `ThemeMode`: `'light' | 'dark' | 'system'`. */
  datatype ThemeMode = Light | Dark | System

  /** The string a mode is stored as. */
  function ModeName(m: ThemeMode): string
  {
    match m
    case Light => "light"
    case Dark => "dark"
    case System => "system"
  }

  predicate IsModeName(v: string)
  {
    v == "light" || v == "dark" || v == "system"
  }

  /** The outcome of `localStorage.getItem`: a value or `null`, or an exception. */
  datatype StorageRead = Returned(item: Option<string>) | Threw

  /**
   * `readStoredMode`: the stored value when it is exactly one of the three
   * mode names, and `'system'` off the browser, for a missing or unknown
   * value, and when storage throws.
   */
  function ReadStoredMode(isBrowser: bool, stored: StorageRead): (m: ThemeMode)
    ensures isBrowser && stored.Returned? && stored.item.Some? && IsModeName(stored.item.value) ==>
      ModeName(m) == stored.item.value
    ensures !(isBrowser && stored.Returned? && stored.item.Some? && IsModeName(stored.item.value)) ==>
      m == System
  {
    if !isBrowser then System
    else match stored
      case Threw => System
      case Returned(None) => System
      case Returned(Some(v)) =>
        if v == "light" then Light
        else if v == "dark" then Dark
        else System
  }

  /** What the persisting effect writes is read back as the same mode. */
  lemma PersistThenRead(m: ThemeMode)
    ensures ReadStoredMode(true, Returned(Some(ModeName(m)))) == m
  {
  }

  /** `effectiveDark`: dark and light are fixed; system follows the OS preference. */
  function EffectiveDarkFor(mode: ThemeMode, osPrefersDark: bool): (dark: bool)
    ensures mode == Dark ==> dark
    ensures mode == Light ==> !dark
    ensures mode == System ==> dark == osPrefersDark
  {
    if mode == Dark then true
    else if mode == Light then false
    else osPrefersDark
  }

  /** A change of OS preference changes the effective theme only in system mode. */
  lemma OsPreferenceMattersOnlyInSystemMode(mode: ThemeMode, before: bool, after: bool)
    ensures EffectiveDarkFor(mode, before) != EffectiveDarkFor(mode, after) <==>
      mode == System && before != after
  {
  }

  class ThemeService {
    const isBrowser: bool
    /** Whether the media query `(prefers-color-scheme: dark)` exists (`mql !== null`). */
    const hasMediaQuery: bool
    var mode: ThemeMode
    var osPrefersDark: bool

    /**
     * Construction reads the stored mode and the OS preference once; the
     * preference is `false` when there is no media query.
     */
    constructor (isBrowser: bool, hasMatchMedia: bool, osMatches: bool, stored: StorageRead)
      ensures this.isBrowser == isBrowser
      ensures hasMediaQuery == (isBrowser && hasMatchMedia)
      ensures mode == ReadStoredMode(isBrowser, stored)
      ensures osPrefersDark == (isBrowser && hasMatchMedia && osMatches)
    {
      this.isBrowser := isBrowser;
      hasMediaQuery := isBrowser && hasMatchMedia;
      mode := ReadStoredMode(isBrowser, stored);
      osPrefersDark := isBrowser && hasMatchMedia && osMatches;
    }

    function EffectiveDark(): bool
      reads this
    {
      EffectiveDarkFor(mode, osPrefersDark)
    }

    /** The value the persisting effect writes, if any: nothing off the browser. */
    function PersistedItem(): (item: Option<string>)
      reads this
      ensures item.Some? <==> isBrowser
      ensures item.Some? ==> ReadStoredMode(isBrowser, Returned(item)) == mode
    {
      if isBrowser then Some(ModeName(mode)) else None
    }

    method SetMode(m: ThemeMode)
      modifies this`mode
      ensures mode == m
    {
      mode := m;
    }

    /** The `change` listener; it is registered only when the media query exists. */
    method OsPreferenceChanged(matches: bool)
      requires hasMediaQuery
      modifies this`osPrefersDark
      ensures osPrefersDark == matches
    {
      osPrefersDark := matches;
    }
  }
}

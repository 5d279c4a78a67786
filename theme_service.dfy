/** `ThemeService`: the dark-mode preference, read once from storage or the
    system setting, mirrored into the `dark` class of `<html>` and written back
    to storage. `localStorage` is a map and the class list a set; the system
    preference is an input, `None` when `matchMedia` is unavailable. */
module ThemeService {
  import opened Wrappers

  const ThemeKey: string := "theme-preference"

  /** `getInitialTheme()`: a stored value decides (dark only for exactly "dark");
      without one the system preference decides; without that, light. */
  function InitialTheme(saved: Option<string>, systemPrefersDark: Option<bool>): (dark: bool)
    ensures saved.Some? ==> (dark <==> saved.value == "dark")
    ensures saved.None? && systemPrefersDark.Some? ==> dark == systemPrefersDark.value
    ensures saved.None? && systemPrefersDark.None? ==> !dark
  {
    if saved.Some? then saved.value == "dark"
    else if systemPrefersDark.Some? then systemPrefersDark.value
    else false
  }

  /** `localStorage.getItem(key)`: `null` for a missing key. */
  function GetItem(storage: map<string, string>, key: string): (v: Option<string>)
    ensures v.Some? <==> key in storage
    ensures v.Some? ==> v.value == storage[key]
  {
    if key in storage then Some(storage[key]) else None
  }

  /** What `saveTheme` stores for a mode. */
  function StoredValue(dark: bool): (v: string)
    ensures v == "dark" || v == "light"
  {
    if dark then "dark" else "light"
  }

  /** A saved mode is read back as itself, whatever the system prefers. */
  lemma SavedThemeRestores(dark: bool, systemPrefersDark: Option<bool>)
    ensures InitialTheme(Some(StoredValue(dark)), systemPrefersDark) == dark
  {
  }

  /** A stored "light" or any unrecognised string means light mode, even on a dark system. */
  lemma UnknownStoredValueIsLight(saved: string, systemPrefersDark: Option<bool>)
    requires saved != "dark"
    ensures !InitialTheme(Some(saved), systemPrefersDark)
  {
  }

  /** The class list after `applyTheme(dark)`. */
  function Applied(classes: set<string>, dark: bool): (r: set<string>)
    ensures "dark" in r <==> dark
    ensures r - {"dark"} == classes - {"dark"}
  {
    if dark then classes + {"dark"} else classes - {"dark"}
  }

  /** Applying a mode twice is applying it once, and the last mode applied wins. */
  lemma AppliedLastWins(classes: set<string>, first: bool, second: bool)
    ensures Applied(Applied(classes, first), second) == Applied(classes, second)
  {
  }

  class ThemeService {
    var isDarkMode: bool
    var storage: map<string, string>
    var htmlClasses: set<string>

    /** The service as created: the initial mode is read and applied at once;
        saving waits for the effect. */
    constructor(storage0: map<string, string>, classes0: set<string>, systemPrefersDark: Option<bool>)
      ensures isDarkMode == InitialTheme(GetItem(storage0, ThemeKey), systemPrefersDark)
      ensures htmlClasses == Applied(classes0, isDarkMode)
      ensures storage == storage0
    {
      isDarkMode := InitialTheme(GetItem(storage0, ThemeKey), systemPrefersDark);
      storage := storage0;
      htmlClasses := classes0;
      new;
      ApplyTheme(isDarkMode);
    }

    /** `toggleTheme()`. */
    method ToggleTheme()
      modifies this
      ensures isDarkMode == !old(isDarkMode)
      ensures storage == old(storage) && htmlClasses == old(htmlClasses)
    {
      isDarkMode := !isDarkMode;
    }

    /** `setDarkMode(isDark)`. */
    method SetDarkMode(isDark: bool)
      modifies this
      ensures isDarkMode == isDark
      ensures storage == old(storage) && htmlClasses == old(htmlClasses)
    {
      isDarkMode := isDark;
    }

    /** `applyTheme(isDark)`: add or remove `dark`, leaving every other class alone. */
    method ApplyTheme(isDark: bool)
      modifies this
      ensures htmlClasses == Applied(old(htmlClasses), isDark)
      ensures isDarkMode == old(isDarkMode) && storage == old(storage)
    {
      if isDark {
        htmlClasses := htmlClasses + {"dark"};
      } else {
        htmlClasses := htmlClasses - {"dark"};
      }
    }

    /** `saveTheme(isDark)`: only the theme key is written. */
    method SaveTheme(isDark: bool)
      modifies this
      ensures storage == old(storage)[ThemeKey := StoredValue(isDark)]
      ensures isDarkMode == old(isDarkMode) && htmlClasses == old(htmlClasses)
    {
      storage := storage[ThemeKey := if isDark then "dark" else "light"];
    }

    /** The effect: apply the current mode and persist it, so that a service
        created later from this storage starts in the same mode. */
    method Sync()
      modifies this
      ensures htmlClasses == Applied(old(htmlClasses), isDarkMode)
      ensures storage == old(storage)[ThemeKey := StoredValue(isDarkMode)]
      ensures isDarkMode == old(isDarkMode)
      ensures forall p :: InitialTheme(GetItem(storage, ThemeKey), p) == isDarkMode
    {
      ApplyTheme(isDarkMode);
      SaveTheme(isDarkMode);
    }
  }

  /** Toggling twice, with the effect running after each change, restores the
      mode, the stored value and the `dark` class. */
  method ToggleTwice(t: ThemeService)
    requires "dark" in t.htmlClasses <==> t.isDarkMode
    modifies t
    ensures t.isDarkMode == old(t.isDarkMode)
    ensures t.htmlClasses == old(t.htmlClasses)
    ensures t.storage == old(t.storage)[ThemeKey := StoredValue(t.isDarkMode)]
  {
    t.ToggleTheme();
    t.Sync();
    t.ToggleTheme();
    t.Sync();
  }
}

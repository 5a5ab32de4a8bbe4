/**
 * useThemeStore.js: the theme store. The theme is fixed to "streamify";
 * dark mode is a flag persisted in the browser's local storage, modelled
 * as a map from keys to strings.
 */
module ThemeStore {

  const FixedTheme: string := "streamify"
  const DarkModeKey: string := "streamify-dark-mode"

  /** `localStorage.getItem(key) === "true" || false`: only the exact text "true" means dark. */
  function StoredDarkMode(storage: map<string, string>): bool
  {
    DarkModeKey in storage && storage[DarkModeKey] == "true"
  }

  /** `String(b)`. */
  function BoolText(b: bool): string
  {
    if b then "true" else "false"
  }

  /** What toggling writes is read back as the value written. */
  lemma PersistRoundTrip(storage: map<string, string>, b: bool)
    ensures StoredDarkMode(storage[DarkModeKey := BoolText(b)]) == b
  {
  }

  /** Any stored text other than exactly "true" ("TRUE", "1", "") starts in light mode. */
  lemma OnlyExactTrueIsDark(storage: map<string, string>)
    requires DarkModeKey in storage && storage[DarkModeKey] != "true"
    ensures !StoredDarkMode(storage)
  {
  }

  class Store {
    var theme: string
    var isDarkMode: bool
    /** The browser's local storage. */
    var storage: map<string, string>

    /** The flag agrees with what a reload would read from storage. */
    predicate Consistent()
      reads this
    {
      isDarkMode == StoredDarkMode(storage)
    }

    /** The store as created on page load from the current storage. */
    constructor (initialStorage: map<string, string>)
      ensures theme == FixedTheme
      ensures isDarkMode <==> DarkModeKey in initialStorage && initialStorage[DarkModeKey] == "true"
      ensures storage == initialStorage
      ensures Consistent()
    {
      theme := FixedTheme;
      isDarkMode := StoredDarkMode(initialStorage);
      storage := initialStorage;
    }

    /** `setTheme`: the argument is ignored and the theme stays "streamify". */
    method SetTheme(requested: string)
      modifies this
      ensures theme == FixedTheme
      ensures isDarkMode == old(isDarkMode) && storage == old(storage)
      ensures old(Consistent()) ==> Consistent()
    {
      theme := FixedTheme;
    }

    /**
     * `toggleDarkMode`: negate the flag, store its text under the dark-mode
     * key, leave the theme alone; two toggles give back the original flag.
     */
    method ToggleDarkMode()
      modifies this
      ensures isDarkMode == !old(isDarkMode)
      ensures storage == old(storage)[DarkModeKey := BoolText(isDarkMode)]
      ensures theme == old(theme)
      ensures Consistent()
    {
      var newDarkMode := !isDarkMode;
      storage := storage[DarkModeKey := BoolText(newDarkMode)];
      isDarkMode := newDarkMode;
      PersistRoundTrip(old(storage), newDarkMode);
    }
  }
}

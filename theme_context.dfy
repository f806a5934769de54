/** The code-highlighting theme: read from local storage once, written through on change. */
module ThemeContext {
  import opened Storage

  const DefaultTheme := "oneDark"

  /** The names the highlighter has styles for. */
  const ThemeKeys: seq<string> := [
    "oneDark", "vscDarkPlus", "dracula", "atomDark", "okaidia", "a11yDark",
    "materialDark", "materialLight", "materialOceanic", "nord", "shadesOfPurple", "synthwave84"]

  /**
   * The stored theme when non-empty, else the default. The stored text is
   * taken as it is, without checking it names a known theme.
   */
  function InitialTheme(items: map<string, string>): (r: string)
    ensures r != ""
    ensures HasText(items, ThemeKey) ==> r == items[ThemeKey]
    ensures !HasText(items, ThemeKey) ==> r == DefaultTheme
  {
    if HasText(items, ThemeKey) then items[ThemeKey] else DefaultTheme
  }

  lemma DefaultIsKnown()
    ensures DefaultTheme in ThemeKeys
  {
  }

  /** An unknown stored name is adopted as the theme. */
  lemma UnknownThemeAdopted(items: map<string, string>)
    requires items == map[ThemeKey := "plain"]
    ensures InitialTheme(items) == "plain" && InitialTheme(items) !in ThemeKeys
  {
  }

  /** Clearing the login leaves the theme as it was. */
  lemma ThemeSurvivesClearAuth(items: map<string, string>)
    ensures InitialTheme(items - {TokenKey, UserKey}) == InitialTheme(items)
  {
    assert ThemeKey != TokenKey && ThemeKey != UserKey;
  }

  class ThemeProvider {
    const store: Store
    var codeTheme: string

    constructor (store: Store)
      ensures this.store == store && codeTheme == InitialTheme(store.items)
    {
      this.store := store;
      codeTheme := InitialTheme(store.items);
    }

    /**
     * Sets the theme and stores it, so that a reload starts with it; an
     * empty name is stored too but a reload then falls back to the default.
     */
    method SetCodeTheme(theme: string)
      modifies this`codeTheme, store
      ensures codeTheme == theme && store.items == old(store.items)[ThemeKey := theme]
      ensures theme != "" ==> InitialTheme(store.items) == codeTheme
      ensures theme == "" ==> InitialTheme(store.items) == DefaultTheme
    {
      codeTheme := theme;
      store.SetItem(ThemeKey, theme);
    }
  }
}

/**
 * The colour theme (frontend/src/context/ThemeProvider.tsx): the initial
 * theme read from storage, the toggle, and the effect that persists the
 * theme and sets the document's `data-theme` attribute and `dark` class.
 */
module ThemeProvider {
  import opened Common
  import opened Storage

  /** `(stored as Theme) || 'light'`: a missing or empty entry gives light; any other entry is used as stored. */
  function InitialTheme(stored: Option<string>): (t: string)
    ensures stored.None? ==> t == "light"
    ensures stored == Some("") ==> t == "light"
    ensures stored.Some? && stored.value != "" ==> t == stored.value
    ensures t != ""
  {
    if stored.None? || stored.value == "" then "light" else stored.value
  }

  /** `prev === 'light' ? 'dark' : 'light'`. */
  function Toggle(t: string): (r: string)
    ensures r == "dark" <==> t == "light"
    ensures r == "light" || r == "dark"
  {
    if t == "light" then "dark" else "light"
  }

  /** Toggling twice restores a light or dark theme. */
  lemma ToggleTwiceRestores(t: string)
    requires t == "light" || t == "dark"
    ensures Toggle(Toggle(t)) == t
  {
  }

  /** A stored value other than light or dark is replaced by light on the first toggle and not restored by the second. */
  lemma ToggleNormalisesUnknown(t: string)
    requires t != "light" && t != "dark"
    ensures Toggle(t) == "light" && Toggle(Toggle(t)) == "dark"
    ensures Toggle(Toggle(t)) != t
  {
  }

  class ThemeState {
    const storage: LocalStorage
    var theme: string
    /** `document.documentElement`'s `data-theme` attribute. */
    var dataTheme: string
    /** Whether `document.documentElement` carries the `dark` class. */
    var darkClass: bool

    /** After the effect has run: storage, attribute and class all agree with the theme. */
    ghost predicate Valid()
      reads this, storage
    {
      storage.theme == Some(theme) && dataTheme == theme && (darkClass <==> theme == "dark")
    }

    /** Initial state followed by the first run of the effect. */
    constructor (storage: LocalStorage)
      modifies storage
      ensures this.storage == storage
      ensures theme == InitialTheme(old(storage.theme))
      ensures Valid()
      ensures storage.token == old(storage.token) && storage.user == old(storage.user)
    {
      this.storage := storage;
      var t := InitialTheme(storage.theme);
      theme := t;
      new;
      Apply();
    }

    /** The effect: persist the theme and update the attribute and the class. */
    method Apply()
      modifies this, storage
      ensures Valid() && theme == old(theme)
      ensures storage.token == old(storage.token) && storage.user == old(storage.user)
    {
      storage.theme := Some(theme);
      dataTheme := theme;
      if theme == "dark" {
        darkClass := true;
      } else {
        darkClass := false;
      }
    }

    /** `toggleTheme` followed by the effect it triggers. */
    method ToggleTheme()
      requires Valid()
      modifies this, storage
      ensures Valid() && theme == Toggle(old(theme))
      ensures darkClass <==> old(theme) == "light"
      ensures storage.token == old(storage.token) && storage.user == old(storage.user)
    {
      theme := Toggle(theme);
      Apply();
    }
  }
}

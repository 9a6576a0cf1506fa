/**
 * `ThemeService` (`src/app/services/theme.service.ts`): the light/dark
 * choice at start-up, the toggle, and the `data-theme` attribute on the
 * document element.
 *
 * The stored `theme` value and the system preference are inputs; the
 * animation-frame callbacks run at once, and the `no-transition` class
 * is not modelled.
 */
module ThemeService {
  import opened Wrappers
  import opened Text

  /**
   * `initializeTheme`: a non-empty saved value wins (unchecked, so it may
   * be neither theme); otherwise the system preference decides.
   */
  function InitialTheme(saved: Option<string>, systemPrefersDark: bool): (theme: string)
    ensures Truthy(saved) ==> theme == saved.value
    ensures !Truthy(saved) ==> (theme == "dark" <==> systemPrefersDark)
    ensures !Truthy(saved) ==> theme == "dark" || theme == "light"
  {
    OrElse(saved, if systemPrefersDark then "dark" else "light")
  }

  /** `toggleTheme`'s new theme: 'light' becomes 'dark', anything else 'light'. */
  function Toggled(theme: string): (next: string)
    ensures next == "dark" <==> theme == "light"
    ensures next == "light" || next == "dark"
  {
    if theme == "light" then "dark" else "light"
  }

  /** From either theme, two toggles change nothing; from any other value they reach 'dark'. */
  lemma ToggleTwice(theme: string)
    ensures theme == "light" || theme == "dark" ==> Toggled(Toggled(theme)) == theme
    ensures theme != "light" && theme != "dark" ==> Toggled(Toggled(theme)) == "dark"
  {
  }

  /** `applyTheme`/`applyThemeImmediate`: the value of `data-theme`, absent unless the theme is 'dark'. */
  function DataThemeFor(theme: string): (attribute: Option<string>)
    ensures attribute.Some? <==> theme == "dark"
    ensures attribute.Some? ==> attribute.value == "dark"
  {
    if theme == "dark" then Some("dark") else None
  }

  class ThemeService {
    var currentTheme: string
    /** The `data-theme` attribute of the document element. */
    var dataTheme: Option<string>
    /** The `theme` entry of local storage. */
    var storedTheme: Option<string>

    /** The attribute shows the current theme. */
    predicate Valid()
      reads this
    {
      dataTheme == DataThemeFor(currentTheme)
    }

    /** Runs `initializeTheme` with the stored value and the system preference. */
    constructor(saved: Option<string>, systemPrefersDark: bool)
      ensures currentTheme == InitialTheme(saved, systemPrefersDark)
      ensures storedTheme == saved
      ensures Valid()
    {
      storedTheme := saved;
      currentTheme := InitialTheme(saved, systemPrefersDark);
      dataTheme := DataThemeFor(InitialTheme(saved, systemPrefersDark));
    }

    /** `applyTheme`: sets or removes the attribute for `theme`. */
    method ApplyTheme(theme: string)
      modifies this
      ensures dataTheme == DataThemeFor(theme)
      ensures currentTheme == old(currentTheme) && storedTheme == old(storedTheme)
    {
      if theme == "dark" {
        dataTheme := Some("dark");
      } else {
        dataTheme := None;
      }
    }

    /** `toggleTheme`: switches, shows and persists the new theme. */
    method ToggleTheme()
      modifies this
      ensures currentTheme == Toggled(old(currentTheme))
      ensures storedTheme == Some(currentTheme)
      ensures Valid()
    {
      currentTheme := if currentTheme == "light" then "dark" else "light";
      ApplyTheme(currentTheme);
      storedTheme := Some(currentTheme);
    }

    /** `getTheme`. */
    method GetTheme() returns (theme: string)
      ensures theme == currentTheme
    {
      theme := currentTheme;
    }
  }
}

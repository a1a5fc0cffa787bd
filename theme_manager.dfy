/**
 * Light and dark themes: the toggle, the class names each theme styles
 * panels with, and the persisted choice, read back from the key-value store
 * before falling back to the system preference, and applied as the `dark`
 * class of the document root.
 */
module ThemeManager {

  const Light: string := "light"
  const Dark: string := "dark"
  const ThemeKey: string := "theme"

  /** `toggleTheme`: light becomes dark, anything else becomes light. */
  function ToggleTheme(current: string): (next: string)
    ensures current == Light ==> next == Dark
    ensures current != Light ==> next == Light
  {
    if current == Light then Dark else Light
  }

  /** Toggling twice gives back either theme, and maps any other value to dark. */
  lemma ToggleTwice(t: string)
    ensures t == Light || t == Dark ==> ToggleTheme(ToggleTheme(t)) == t
    ensures t != Light && t != Dark ==> ToggleTheme(ToggleTheme(t)) == Dark
  {
  }

  /** The class names `getThemeClasses` hands to the panels. */
  datatype ThemeClasses = ThemeClasses(
    bgMain: string, bgPanel: string, bgCard: string, border: string,
    textPrimary: string, textSecondary: string, textMuted: string)

  const DarkClasses: ThemeClasses := ThemeClasses(
    "bg-slate-950", "bg-slate-900", "bg-slate-800", "border-slate-800",
    "text-slate-100", "text-slate-400", "text-slate-500")

  const LightClasses: ThemeClasses := ThemeClasses(
    "bg-slate-100", "bg-white", "bg-slate-50", "border-slate-200",
    "text-slate-800", "text-slate-500", "text-slate-400")

  /** The dark set for exactly `dark`, the light set for every other value. */
  function GetThemeClasses(theme: string): (c: ThemeClasses)
    ensures c == DarkClasses <==> theme == Dark
    ensures c == LightClasses <==> theme != Dark
  {
    assert DarkClasses.bgPanel != LightClasses.bgPanel;
    if theme == Dark then DarkClasses else LightClasses
  }

  /** Muted and secondary text swap shades between the two themes. */
  lemma MutedSwapsSecondary()
    ensures DarkClasses.textMuted == LightClasses.textSecondary
    ensures DarkClasses.textSecondary == LightClasses.textMuted
  {
  }

  /**
   * What the theme functions see of the browser: whether there is one, the
   * key-value store, the class list of the document root, and whether the
   * system asks for a dark scheme.
   */
  class ThemeEnv {
    var browser: bool
    var storage: map<string, string>
    var rootClasses: set<string>
    var prefersDark: bool

    constructor (browser: bool, storage: map<string, string>, rootClasses: set<string>, prefersDark: bool)
      ensures this.browser == browser && this.storage == storage
      ensures this.rootClasses == rootClasses && this.prefersDark == prefersDark
    {
      this.browser := browser;
      this.storage := storage;
      this.rootClasses := rootClasses;
      this.prefersDark := prefersDark;
    }

    /**
     * `getInitialTheme`: light outside a browser; otherwise a non-empty
     * stored theme, else dark when the system prefers it, else light.
     */
    function GetInitialTheme(): (t: string)
      reads this
      ensures !browser ==> t == Light
      ensures browser && ThemeKey in storage && storage[ThemeKey] != "" ==> t == storage[ThemeKey]
      ensures browser && (ThemeKey !in storage || storage[ThemeKey] == "") ==>
                t == (if prefersDark then Dark else Light)
    {
      if !browser then Light
      else if ThemeKey in storage && storage[ThemeKey] != "" then storage[ThemeKey]
      else if prefersDark then Dark
      else Light
    }

    /**
     * `applyTheme`: in a browser, the root carries `dark` exactly for the
     * dark theme, and the theme is stored; outside one, nothing happens.
     */
    method ApplyTheme(theme: string)
      modifies this`storage, this`rootClasses
      ensures !browser ==> storage == old(storage) && rootClasses == old(rootClasses)
      ensures browser ==> storage == old(storage)[ThemeKey := theme]
      ensures browser && theme == Dark ==> rootClasses == old(rootClasses) + {Dark}
      ensures browser && theme != Dark ==> rootClasses == old(rootClasses) - {Dark}
    {
      if !browser {
        return;
      }
      if theme == Dark {
        rootClasses := rootClasses + {Dark};
      } else {
        rootClasses := rootClasses - {Dark};
      }
      storage := storage[ThemeKey := theme];
    }
  }

  /**
   * Applying a theme and reading the initial theme back gives that theme,
   * whatever the system prefers, and the root is dark exactly for `dark`.
   */
  method ApplyThenRead(env: ThemeEnv, theme: string) returns (read: string)
    requires env.browser && theme != ""
    modifies env
    ensures read == theme
    ensures Dark in env.rootClasses <==> theme == Dark
  {
    env.ApplyTheme(theme);
    read := env.GetInitialTheme();
  }

  /** Toggling and applying flips the root's `dark` class and the stored theme. */
  method ToggleAndApply(env: ThemeEnv) returns (next: string)
    requires env.browser
    modifies env
    ensures next == ToggleTheme(old(env.GetInitialTheme()))
    ensures env.GetInitialTheme() == next
    ensures Dark in env.rootClasses <==> old(env.GetInitialTheme()) == Light
  {
    next := ToggleTheme(env.GetInitialTheme());
    env.ApplyTheme(next);
  }
}

/** The theme provider (src/components/theme-provider.tsx): what the text
    of its inline theme script does to the `dark` class on `<html>`, the
    listener that follows the operating system's colour scheme while the
    theme it captured is `system`, and the hidden render before mount. The
    script element is rendered only in the mounted branch; the model states
    the effect of its text when it runs, not whether the browser runs it.
    The provider reads the theme with `useTheme()` from outside any theme
    context, so the theme its listener captures is `undefined`. The class
    list of `<html>` is a field that the script and the listener change in
    place. */
module ThemeProvider {
  import opened Text
  import TokenList

  /** The key the theme is stored under in `localStorage`. */
  const StorageKey := "admybrand-theme"

  /** `localStorage.getItem(key) || 'system'`: a missing or empty entry
      counts as `system`. */
  function StoredTheme(stored: Option<string>): (t: string)
    ensures Truthy(stored) ==> t == stored.value
    ensures !Truthy(stored) ==> t == "system"
  {
    if Truthy(stored) then stored.value else "system"
  }

  /** The theme the script applies: the operating system's scheme when the
      stored theme is `system`, otherwise the stored theme itself. */
  function ResolvedTheme(stored: Option<string>, systemDark: bool): (t: string)
    ensures StoredTheme(stored) == "system" ==> t == (if systemDark then "dark" else "light")
    ensures StoredTheme(stored) != "system" ==> t == StoredTheme(stored)
  {
    var theme := StoredTheme(stored);
    if theme == "system" then (if systemDark then "dark" else "light") else theme
  }

  /** What the script's `try` block gets to see: the stored entry and the
      media query, or an exception from either (storage blocked, no
      `matchMedia`). Both are read before the class list is touched. */
  datatype ScriptRun = Completed(stored: Option<string>, systemDark: bool) | Threw

  /** The class list the script leaves behind. */
  function ScriptClasses(classes: seq<string>, run: ScriptRun): seq<string> {
    match run
    case Threw => classes
    case Completed(stored, systemDark) =>
      if ResolvedTheme(stored, systemDark) == "dark" then TokenList.Add(classes, "dark")
      else TokenList.Remove(classes, "dark")
  }

  /** After the script, `dark` is present exactly when the resolved theme
      is `dark`, and no other class has come or gone; an exception leaves
      the list as it was. */
  lemma ScriptSetsDark(classes: seq<string>, run: ScriptRun)
    ensures run.Completed? ==>
      ("dark" in ScriptClasses(classes, run) <==> ResolvedTheme(run.stored, run.systemDark) == "dark")
    ensures forall d :: d != "dark" ==> (d in ScriptClasses(classes, run) <==> d in classes)
    ensures run.Threw? ==> ScriptClasses(classes, run) == classes
  {
  }

  /** With nothing stored, the page follows the operating system. */
  lemma NothingStoredFollowsSystem(classes: seq<string>, systemDark: bool)
    ensures "dark" in ScriptClasses(classes, Completed(None, systemDark)) <==> systemDark
    ensures "dark" in ScriptClasses(classes, Completed(Some(""), systemDark)) <==> systemDark
  {
  }

  /** An unknown stored value is not `dark`, so it clears the class. */
  lemma UnknownThemeIsLight(classes: seq<string>, systemDark: bool)
    ensures "dark" !in ScriptClasses(classes, Completed(Some("sepia"), systemDark))
  {
  }

  /** The class list after `handleSystemThemeChange` runs for a media-query
      event, with the theme `useTheme` reported when it was registered. */
  function SystemChangeClasses(classes: seq<string>, theme: Option<string>, matches: bool): seq<string> {
    if theme == Some("system") then
      TokenList.Add(TokenList.Remove(TokenList.Remove(classes, "light"), "dark"), if matches then "dark" else "light")
    else classes
  }

  /** The handler does nothing unless the theme is `system`; when it acts,
      exactly one of `light` and `dark` is left, `dark` when the system
      prefers dark, and every other class is untouched. */
  lemma SystemChangeOneScheme(classes: seq<string>, theme: Option<string>, matches: bool)
    ensures theme != Some("system") ==> SystemChangeClasses(classes, theme, matches) == classes
    ensures theme == Some("system") ==>
      var r := SystemChangeClasses(classes, theme, matches);
      && ("dark" in r <==> matches)
      && ("light" in r <==> !matches)
    ensures forall d :: d != "dark" && d != "light" ==>
      (d in SystemChangeClasses(classes, theme, matches) <==> d in classes)
  {
  }

  /** Two changes in a row leave what the last one alone would leave. */
  lemma SystemChangeLastWins(classes: seq<string>, m1: bool, m2: bool)
    ensures var r := SystemChangeClasses(SystemChangeClasses(classes, Some("system"), m1), Some("system"), m2);
      && ("dark" in r <==> m2)
      && ("light" in r <==> !m2)
  {
  }

  /** The theme `useTheme()` reports in the provider itself: it renders the
      theme context rather than sitting below one (its one use, in
      src/components/ClientLayout.tsx, has no provider above it), so it
      gets the context default, whose theme is `undefined`. */
  const ThemeOutsideProvider: Option<string> := None

  /** The class list after a run of media-query events, each handled with
      the theme the listener captured. */
  function SystemChanges(classes: seq<string>, theme: Option<string>, events: seq<bool>): seq<string>
    decreases |events|
  {
    if events == [] then classes
    else SystemChanges(SystemChangeClasses(classes, theme, events[0]), theme, events[1..])
  }

  /** As written, the listener captures `undefined`, so no change of the
      operating system's scheme ever reaches the class list. */
  lemma {:induction false} HandlerNeverActs(classes: seq<string>, events: seq<bool>)
    ensures SystemChanges(classes, ThemeOutsideProvider, events) == classes
    decreases |events|
  {
    if events != [] {
      SystemChangeOneScheme(classes, ThemeOutsideProvider, events[0]);
      HandlerNeverActs(classes, events[1..]);
    }
  }

  /** With the theme read inside the provider's context, where it is
      `system` by default, the class list follows the last event: exactly
      one of `light` and `dark` is left, and every other class stays. */
  lemma {:induction false} SystemThemeFollowsLastEvent(classes: seq<string>, events: seq<bool>)
    requires events != []
    ensures var r := SystemChanges(classes, Some("system"), events);
      && ("dark" in r <==> events[|events| - 1])
      && ("light" in r <==> !events[|events| - 1])
      && forall d :: d != "dark" && d != "light" ==> (d in r <==> d in classes)
    decreases |events|
  {
    var c1 := SystemChangeClasses(classes, Some("system"), events[0]);
    SystemChangeOneScheme(classes, Some("system"), events[0]);
    if |events| > 1 {
      SystemThemeFollowsLastEvent(c1, events[1..]);
      assert events[1..][|events[1..]| - 1] == events[|events| - 1];
    }
  }

  /** `document.documentElement`, as far as its class list goes. */
  class DocumentRoot {
    var classes: seq<string>

    constructor (classes: seq<string>)
      ensures this.classes == classes
    {
      this.classes := classes;
    }

    /** The inline theme script; an exception is caught and ignored. */
    method RunThemeScript(run: ScriptRun)
      modifies this
      ensures classes == ScriptClasses(old(classes), run)
    {
      if run.Threw? {
        return;
      }
      var theme := if Truthy(run.stored) then run.stored.value else "system";
      var currentTheme := if theme == "system" then (if run.systemDark then "dark" else "light") else theme;
      if currentTheme == "dark" {
        classes := TokenList.Add(classes, "dark");
      } else {
        classes := TokenList.Remove(classes, "dark");
      }
    }

    /** `handleSystemThemeChange` for an event whose `matches` is given. */
    method HandleSystemThemeChange(theme: Option<string>, matches: bool)
      modifies this
      ensures classes == SystemChangeClasses(old(classes), theme, matches)
    {
      if theme == Some("system") {
        var newTheme := if matches then "dark" else "light";
        classes := TokenList.Remove(TokenList.Remove(classes, "light"), "dark");
        classes := TokenList.Add(classes, newTheme);
      }
    }
  }

  /** What the provider renders: its children, whether they are visible,
      and whether the theme context and the inline script are there. */
  datatype ProviderView = ProviderView(childrenRendered: bool, visible: bool, themed: bool)

  function Render(mounted: bool): ProviderView {
    if !mounted then ProviderView(true, false, false) else ProviderView(true, true, true)
  }

  /** Before mount the children are in the page but hidden, and there is
      no theme script element; after mount they show inside the theme
      context. The
      children are rendered either way. */
  lemma HiddenUntilMounted(mounted: bool)
    ensures Render(mounted).childrenRendered
    ensures Render(mounted).visible <==> mounted
    ensures Render(mounted).themed <==> Render(mounted).visible
  {
  }
}

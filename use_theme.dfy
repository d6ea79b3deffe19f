/** src/composables/useTheme.ts: the light/dark theme. The module-level `isDark`
    ref, the class list of `<html>` and `localStorage` are the fields of
    `ThemeStore`; `Page` and the functions over it say on values what each
    operation does, so that lemmas can relate several of them. Whether the
    system prefers a dark scheme (`matchMedia`) is a parameter. */
module UseTheme {
  import opened Wrappers

  const ThemeKey: string := "theme"
  const DarkClass: string := "dark"

  datatype Page = Page(isDark: bool, htmlClasses: set<string>, storage: map<string, string>)

  /** `localStorage.getItem('theme')` */
  function StoredTheme(storage: map<string, string>): Option<string> {
    if ThemeKey in storage then Some(storage[ThemeKey]) else None
  }

  /** The stored theme read as a condition: unset and the empty string are falsy. */
  predicate HasStoredTheme(p: Page) {
    ThemeKey in p.storage && p.storage[ThemeKey] != ""
  }

  /** `<html>` and `localStorage` agree with `isDark`. */
  predicate InSync(p: Page) {
    (DarkClass in p.htmlClasses <==> p.isDark) &&
    StoredTheme(p.storage) == Some(if p.isDark then "dark" else "light")
  }

  /** `updateTheme()`: brings the class list and the stored theme in line with
      `isDark` and touches no other class and no other key. */
  function Updated(p: Page): (r: Page)
    ensures InSync(r) && r.isDark == p.isDark
    ensures r.htmlClasses - {DarkClass} == p.htmlClasses - {DarkClass}
    ensures forall k :: k != ThemeKey ==> (k in r.storage <==> k in p.storage)
    ensures forall k :: k != ThemeKey && k in p.storage ==> r.storage[k] == p.storage[k]
  {
    if p.isDark then
      p.(htmlClasses := p.htmlClasses + {DarkClass}, storage := p.storage[ThemeKey := "dark"])
    else
      p.(htmlClasses := p.htmlClasses - {DarkClass}, storage := p.storage[ThemeKey := "light"])
  }

  /** `toggleTheme()` */
  function Toggled(p: Page): (r: Page)
    ensures r.isDark == !p.isDark && InSync(r)
    ensures r.htmlClasses - {DarkClass} == p.htmlClasses - {DarkClass}
    ensures forall k :: k != ThemeKey ==> (k in r.storage <==> k in p.storage)
    ensures forall k :: k != ThemeKey && k in p.storage ==> r.storage[k] == p.storage[k]
  {
    Updated(p.(isDark := !p.isDark))
  }

  /** `initTheme()`: dark when `'dark'` is stored, or when nothing (or the empty
      string) is stored and the system prefers dark; light otherwise. */
  function Initialized(p: Page, systemDark: bool): (r: Page)
    ensures r.isDark <==> StoredTheme(p.storage) == Some("dark") || (!HasStoredTheme(p) && systemDark)
    ensures InSync(r)
    ensures r.htmlClasses - {DarkClass} == p.htmlClasses - {DarkClass}
    ensures forall k :: k != ThemeKey ==> (k in r.storage <==> k in p.storage)
    ensures forall k :: k != ThemeKey && k in p.storage ==> r.storage[k] == p.storage[k]
  {
    var userTheme := StoredTheme(p.storage);
    Updated(p.(isDark := userTheme == Some("dark") || (!HasStoredTheme(p) && systemDark)))
  }

  /** The `change` listener on the system preference: it follows the system only
      while no theme is stored. */
  function AfterSystemChange(p: Page, matches: bool): (r: Page)
    ensures HasStoredTheme(p) ==> r == p
    ensures !HasStoredTheme(p) ==> r.isDark == matches && InSync(r)
    ensures r.htmlClasses - {DarkClass} == p.htmlClasses - {DarkClass}
    ensures forall k :: k != ThemeKey ==> (k in r.storage <==> k in p.storage)
    ensures forall k :: k != ThemeKey && k in p.storage ==> r.storage[k] == p.storage[k]
  {
    if !HasStoredTheme(p) then Updated(p.(isDark := matches)) else p
  }

  // ---------------------------------------------------------------------------
  // Properties

  /** Applying `updateTheme` twice leaves the page as applying it once. */
  lemma UpdatedIsIdempotent(p: Page)
    ensures Updated(Updated(p)) == Updated(p)
  {
  }

  /** Toggling twice is the same as syncing the page to the old `isDark`. */
  lemma ToggledTwice(p: Page)
    ensures Toggled(Toggled(p)) == Updated(p)
  {
  }

  /** Once `initTheme` has run a theme is stored, so the system-change listener
      changes nothing from then on; neither does toggling unset it. */
  lemma SystemChangeIgnoredAfterInit(p: Page, systemDark: bool, matches: bool)
    ensures HasStoredTheme(Initialized(p, systemDark))
    ensures AfterSystemChange(Initialized(p, systemDark), matches) == Initialized(p, systemDark)
    ensures AfterSystemChange(Toggled(Initialized(p, systemDark)), matches) == Toggled(Initialized(p, systemDark))
  {
  }

  /** The scenario of the ThemeToggle test: a cleared store and class list,
      light, a system that does not prefer dark; mount, click, click. */
  lemma ThemeToggleScenario()
    ensures var mounted := Initialized(Page(false, {}, map[]), false);
      var once := Toggled(mounted);
      var twice := Toggled(once);
      DarkClass !in mounted.htmlClasses &&
      DarkClass in once.htmlClasses && StoredTheme(once.storage) == Some("dark") &&
      DarkClass !in twice.htmlClasses && StoredTheme(twice.storage) == Some("light") && !twice.isDark
  {
  }

  class ThemeStore {
    var isDark: bool
    var htmlClasses: set<string>
    var storage: map<string, string>

    function View(): Page
      reads this
    {
      Page(isDark, htmlClasses, storage)
    }

    /** The page as the app starts: `ref(false)` and whatever the document and
        the storage already hold. */
    constructor (classes: set<string>, stored: map<string, string>)
      ensures View() == Page(false, classes, stored)
    {
      isDark := false;
      htmlClasses := classes;
      storage := stored;
    }

    method UpdateTheme()
      modifies this
      ensures View() == Updated(old(View()))
    {
      if isDark {
        htmlClasses := htmlClasses + {DarkClass};
        storage := storage[ThemeKey := "dark"];
      } else {
        htmlClasses := htmlClasses - {DarkClass};
        storage := storage[ThemeKey := "light"];
      }
    }

    method ToggleTheme()
      modifies this
      ensures View() == Toggled(old(View()))
    {
      isDark := !isDark;
      UpdateTheme();
    }

    method InitTheme(systemDark: bool)
      modifies this
      ensures View() == Initialized(old(View()), systemDark)
    {
      var userTheme := StoredTheme(storage);
      var hasUserTheme := userTheme.Some? && userTheme.value != "";
      if userTheme == Some("dark") || (!hasUserTheme && systemDark) {
        isDark := true;
      } else {
        isDark := false;
      }
      UpdateTheme();
    }

    method OnSystemChange(matches: bool)
      modifies this
      ensures View() == AfterSystemChange(old(View()), matches)
    {
      var userTheme := StoredTheme(storage);
      if !(userTheme.Some? && userTheme.value != "") {
        isDark := matches;
        UpdateTheme();
      }
    }
  }
}

/** ThemeService: six colour themes, one of which is applied as a `<name>-theme`
    class on the document body and remembered under the storage key 'theme'. */
module Theme {
  import opened Common
  import opened Storage

  const Themes: seq<string> := ["light", "dark", "ocean", "sunset", "forest", "pirate"]

  const Labels: map<string, string> := map[
    "light" := "Claro", "dark" := "Oscuro", "ocean" := "Ocean",
    "sunset" := "Atardecer", "forest" := "Bosque", "pirate" := "Pirata"]

  const ThemeStorageKey := "theme"
  const DefaultTheme := "dark"

  /** The body class of a theme. */
  function ThemeClass(t: string): string {
    t + "-theme"
  }

  /** The body classes of the given themes. */
  function ClassesOf(s: seq<string>): set<string> {
    set t | t in s :: ThemeClass(t)
  }

  /** `themes.indexOf(t)`: the first position holding `t`, or -1. */
  function IndexOf(s: seq<string>, t: string): (r: int)
    ensures -1 <= r < |s|
    ensures r == -1 <==> t !in s
    ensures r >= 0 ==> s[r] == t && forall k :: 0 <= k < r ==> s[k] != t
    decreases |s|
  {
    if |s| == 0 then -1
    else if s[0] == t then 0
    else
      var r := IndexOf(s[1..], t);
      assert forall k :: 1 <= k < |s| ==> s[k] == s[1..][k - 1];
      if r == -1 then -1 else r + 1
  }

  /** Every name occurs once. */
  predicate Distinct(s: seq<string>) {
    forall a, b :: 0 <= a < b < |s| ==> s[a] != s[b]
  }

  /** In a list without repeats, `indexOf` finds each entry at its own position. */
  lemma IndexOfDistinct(s: seq<string>, i: nat)
    requires Distinct(s) && i < |s|
    ensures IndexOf(s, s[i]) == i
  {
    assert s[i] in s;
  }

  /** The entry after `current` in `s`, wrapping round; an absent `current`
      (index -1) is followed by the first entry. */
  function NextIn(s: seq<string>, current: string): string
    requires |s| > 0
  {
    s[(IndexOf(s, current) + 1) % |s|]
  }

  /** `n` steps of `NextIn` in a row. */
  function ToggledIn(s: seq<string>, t: string, n: nat): string
    requires |s| > 0
    decreases n
  {
    if n == 0 then t else NextIn(s, ToggledIn(s, t, n - 1))
  }

  /** The position after `i` on a circle of `m` positions. */
  function Succ(i: nat, m: nat): nat
    requires i < m
  {
    if i + 1 == m then 0 else i + 1
  }

  lemma SuccIsMod(i: nat, m: nat)
    requires i < m
    ensures Succ(i, m) == (i + 1) % m
  {
  }

  /** The position `n` steps after `i` on a circle of `m` positions. */
  function Ahead(i: nat, n: nat, m: nat): (r: nat)
    requires i < m
    ensures r < m
    decreases n
  {
    if n == 0 then i else Succ(Ahead(i, n - 1, m), m)
  }

  /** In a list without repeats, `n` steps from the entry at `i` land on the entry `n` positions further round. */
  lemma {:induction false} ToggledInAt(s: seq<string>, i: nat, n: nat)
    requires Distinct(s) && i < |s|
    ensures ToggledIn(s, s[i], n) == s[Ahead(i, n, |s|)]
    decreases n
  {
    if n > 0 {
      ToggledInAt(s, i, n - 1);
      NextInAt(s, Ahead(i, n - 1, |s|));
    }
  }

  /** In a list without repeats, the entry after `s[j]` is the one at the next position round. */
  lemma NextInAt(s: seq<string>, j: nat)
    requires Distinct(s) && j < |s|
    ensures NextIn(s, s[j]) == s[Succ(j, |s|)]
  {
    IndexOfDistinct(s, j);
    SuccIsMod(j, |s|);
  }

  /** On the circle of six, `n` steps are `i + n` reduced modulo six. */
  lemma {:induction false} AheadSix(i: nat, n: nat)
    requires i < 6
    ensures Ahead(i, n, 6) == (i + n) % 6
    decreases n
  {
    if n > 0 {
      AheadSix(i, n - 1);
      SuccIsMod(Ahead(i, n - 1, 6), 6);
      ModSixStep(i + n - 1);
    }
  }

  lemma ModSixStep(a: nat)
    ensures (a % 6 + 1) % 6 == (a + 1) % 6
  {
  }

  /** `toggleTheme`'s choice: the theme after the current one, wrapping
      around; a name that is not one of the six is followed by the first, 'light'. */
  function NextTheme(current: string): (r: string)
    ensures r in Themes
    ensures current !in Themes ==> r == Themes[0]
  {
    NextIn(Themes, current)
  }

  /** `n` toggles in a row. */
  function Toggled(t: string, n: nat): string {
    ToggledIn(Themes, t, n)
  }

  /** The six themes are pairwise different (they already differ in their first letter). */
  lemma ThemesDistinct()
    ensures Distinct(Themes)
  {
    forall a, b | 0 <= a < b < |Themes| ensures Themes[a] != Themes[b] {
      assert Themes[a][0] != Themes[b][0];
    }
  }

  /** Each theme sits at its own position, and its successor is the next one round the circle. */
  lemma NextThemeAt(i: nat)
    requires i < |Themes|
    ensures IndexOf(Themes, Themes[i]) == i
    ensures NextTheme(Themes[i]) == Themes[(i + 1) % |Themes|]
  {
    ThemesDistinct();
    IndexOfDistinct(Themes, i);
  }

  /** `n` toggles from the theme at position `i` land on the theme at `(i + n) % 6`. */
  lemma ToggledAt(i: nat, n: nat)
    requires i < |Themes|
    ensures Toggled(Themes[i], n) == Themes[(i + n) % |Themes|]
  {
    ThemesDistinct();
    ToggledInAt(Themes, i, n);
    AheadSix(i, n);
  }

  /** A theme comes back after `n` toggles exactly when `n` is a multiple of six. */
  lemma TogglesReturnIff(t: string, n: nat)
    requires t in Themes
    ensures Toggled(t, n) == t <==> n % |Themes| == 0
  {
    var i := IndexOf(Themes, t);
    ToggledAt(i, n);
    ThemesDistinct();
    assert Themes[(i + n) % 6] == t <==> (i + n) % 6 == i;
    BackAtStart(i, n);
  }

  lemma BackAtStart(i: nat, n: nat)
    requires i < 6
    ensures (i + n) % 6 == i <==> n % 6 == 0
  {
  }

  /** `initTheme`'s choice: the saved theme when it is one of the six, else 'dark'. */
  function InitialTheme(saved: Option<Value>): (t: string)
    ensures t in Themes
    ensures saved.Some? && saved.value.Str? && saved.value.s in Themes ==> t == saved.value.s
    ensures !(saved.Some? && saved.value.Str? && saved.value.s in Themes) ==> t == DefaultTheme
  {
    if Truthy(saved) && saved.value.Str? && saved.value.s in Themes then saved.value.s else DefaultTheme
  }

  /** `getThemeLabel(t)`: the Spanish label, or `t` itself when it has none. */
  function GetThemeLabel(t: string): (r: string)
    ensures t in Labels ==> r == Labels[t]
    ensures t !in Labels ==> r == t
  {
    if t in Labels && Labels[t] != "" then Labels[t] else t
  }

  /** Every theme has its own label, distinct from the others. */
  lemma LabelsCoverThemes(i: nat, j: nat)
    requires i < |Themes| && j < |Themes| && i != j
    ensures Themes[i] in Labels && Themes[j] in Labels
    ensures GetThemeLabel(Themes[i]) != GetThemeLabel(Themes[j])
  {
  }

  class ThemeService {
    /** The value of `currentThemeSubject`. */
    var currentTheme: string
    /** The classes on `document.body`. */
    var bodyClasses: set<string>
    const storage: Store

    ghost predicate Valid()
      reads this, storage
    {
      storage.Valid()
    }

    /** The constructor runs `initTheme`. */
    constructor (storage: Store, body: set<string>)
      requires storage.Valid()
      modifies storage
      ensures Valid() && this.storage == storage && storage.data == old(storage.data)
      ensures currentTheme == InitialTheme(Find(storage.data, ThemeStorageKey))
      ensures bodyClasses == (body - ClassesOf(Themes)) + {ThemeClass(currentTheme)}
    {
      this.storage := storage;
      currentTheme := "light";
      bodyClasses := body;
      new;
      InitTheme();
    }

    method InitTheme()
      requires Valid()
      modifies this, storage
      ensures Valid() && storage.data == old(storage.data)
      ensures currentTheme == InitialTheme(Find(storage.data, ThemeStorageKey))
      ensures bodyClasses == (old(bodyClasses) - ClassesOf(Themes)) + {ThemeClass(currentTheme)}
    {
      var saved := storage.Get(ThemeStorageKey);
      var theme := if Truthy(saved) && saved.value.Str? && saved.value.s in Themes then saved.value.s else DefaultTheme;
      ApplyTheme(theme);
    }

    /** `applyTheme(theme)`: removes every theme class, adds the new one and publishes it. */
    method ApplyTheme(theme: string)
      modifies this
      ensures currentTheme == theme
      ensures bodyClasses == (old(bodyClasses) - ClassesOf(Themes)) + {ThemeClass(theme)}
    {
      var i := 0;
      while i < |Themes|
        invariant 0 <= i <= |Themes|
        invariant bodyClasses == old(bodyClasses) - ClassesOf(Themes[..i])
      {
        assert Themes[..i + 1] == Themes[..i] + [Themes[i]];
        bodyClasses := bodyClasses - {ThemeClass(Themes[i])};
        i := i + 1;
      }
      assert Themes[..|Themes|] == Themes;
      bodyClasses := bodyClasses + {ThemeClass(theme)};
      currentTheme := theme;
    }

    /** `toggleTheme`: applies the next theme, stores it, and returns the toast text. */
    method ToggleTheme() returns (toast: string)
      requires Valid()
      modifies this, storage
      ensures Valid()
      ensures currentTheme == NextTheme(old(currentTheme))
      ensures bodyClasses == (old(bodyClasses) - ClassesOf(Themes)) + {ThemeClass(currentTheme)}
      ensures storage.data == old(storage.data)[ThemeStorageKey := Str(currentTheme)]
      ensures toast == "Tema: " + GetThemeLabel(currentTheme)
    {
      var index := IndexOf(Themes, currentTheme);
      var nextTheme := Themes[(index + 1) % |Themes|];
      ApplyTheme(nextTheme);
      storage.Set(ThemeStorageKey, Str(nextTheme));
      toast := "Tema: " + GetThemeLabel(nextTheme);
    }
  }

  /** After `applyTheme` with one of the six themes, its class is the only theme class on the body. */
  lemma OnlyOneThemeClass(body: set<string>, theme: string)
    requires theme in Themes
    ensures ((body - ClassesOf(Themes)) + {ThemeClass(theme)}) * ClassesOf(Themes) == {ThemeClass(theme)}
  {
    var i := IndexOf(Themes, theme);
    assert ThemeClass(Themes[i]) in ClassesOf(Themes);
  }

  /** A toggled theme is stored, so the next start of the app applies it again. */
  method ToggleThenRestart(svc: ThemeService, body: set<string>) returns (again: ThemeService)
    requires svc.Valid()
    modifies svc, svc.storage
    ensures again.currentTheme == svc.currentTheme
  {
    var _ := svc.ToggleTheme();
    again := new ThemeService(svc.storage, body);
  }
}

/** The theme preference of `app/page.tsx`: how the persisted `theme` key is read on
    mount, what is written back, and how `toggleDarkMode` computes the next value.
    localStorage is modelled as a map from keys to strings and the root element's
    class list as a set of class names. */
module Theme {
  import opened Wrappers

  const THEME_KEY := "theme"
  const DARK_CLASS := "dark"

  /** `localStorage.getItem('theme')`. */
  function StoredTheme(storage: map<string, string>): (saved: Option<string>)
    ensures saved.Some? <==> THEME_KEY in storage
    ensures saved.Some? ==> saved.value == storage[THEME_KEY]
  {
    if THEME_KEY in storage then Some(storage[THEME_KEY]) else None
  }

  /** The mount effect's decision: light exactly when the stored value is the string
      "light"; a missing key or any other value means dark. */
  function ResolveDarkMode(saved: Option<string>): (dark: bool)
    ensures !dark <==> saved == Some("light")
    ensures saved.None? ==> dark
  {
    var isLight := saved == Some("light");
    !isLight
  }

  /** The value the sync effect writes under the `theme` key. */
  function ThemeValue(dark: bool): (s: string)
    ensures s == "dark" || s == "light"
    ensures ResolveDarkMode(Some(s)) == dark
  {
    if dark then "dark" else "light"
  }

  /** The sync effect has settled: storage holds the theme of `dark`, and the root
      element carries the `dark` class exactly when `dark`. */
  predicate Synced(dark: bool, storage: map<string, string>, rootClasses: set<string>) {
    && THEME_KEY in storage
    && storage[THEME_KEY] == ThemeValue(dark)
    && (DARK_CLASS in rootClasses <==> dark)
  }

  /** The updater passed to `setDarkMode` by `toggleDarkMode(isDark?)`. */
  function NextDarkMode(prev: bool, isDark: Option<bool>): (next: bool)
    ensures isDark.Some? ==> next == isDark.value
    ensures isDark.None? ==> next != prev
  {
    if isDark.Some? then isDark.value else !prev
  }

  /** Setting an explicit theme twice is the same as setting it once. */
  lemma ExplicitToggleIdempotent(prev: bool, v: bool)
    ensures NextDarkMode(NextDarkMode(prev, Some(v)), Some(v)) == NextDarkMode(prev, Some(v))
  {
  }

  /** Toggling without an argument twice restores the original theme. */
  lemma PlainToggleInvolutive(prev: bool)
    ensures NextDarkMode(NextDarkMode(prev, None), None) == prev
  {
  }

  /** Persisting a theme and reading it back on the next mount gives the same theme. */
  lemma PersistedThemeRoundTrip(dark: bool, storage: map<string, string>, rootClasses: set<string>)
    requires Synced(dark, storage, rootClasses)
    ensures ResolveDarkMode(StoredTheme(storage)) == dark
  {
  }

  /** What the mount effect leaves: the theme it asks `setDarkMode` for, and the root class
      list, from which it removes `dark` for a stored "light" and to which it adds `dark`
      otherwise. */
  function MountEffect(storage: map<string, string>, rootClasses: set<string>): (r: (bool, set<string>))
    ensures r.0 == ResolveDarkMode(StoredTheme(storage))
    ensures DARK_CLASS in r.1 <==> r.0
    ensures forall c :: c != DARK_CLASS ==> (c in r.1 <==> c in rootClasses)
  {
    var dark := ResolveDarkMode(StoredTheme(storage));
    (dark, if dark then rootClasses + {DARK_CLASS} else rootClasses - {DARK_CLASS})
  }

  /** The sync effect for the value `dark`: it writes the theme under `theme` and sets the
      root class list to match, touching no other key and no other class. */
  function SyncEffect(dark: bool, storage: map<string, string>, rootClasses: set<string>): (r: (map<string, string>, set<string>))
    ensures Synced(dark, r.0, r.1)
    ensures forall k :: k != THEME_KEY ==> (k in r.0 <==> k in storage) && (k in storage ==> r.0[k] == storage[k])
    ensures forall c :: c != DARK_CLASS ==> (c in r.1 <==> c in rootClasses)
  {
    (storage[THEME_KEY := ThemeValue(dark)],
     if dark then rootClasses + {DARK_CLASS} else rootClasses - {DARK_CLASS})
  }

  /** Once synced, running the sync effect again changes nothing; this is why it may be
      skipped when `darkMode` did not change. */
  lemma {:induction false} SyncEffectIdempotent(dark: bool, storage: map<string, string>, rootClasses: set<string>)
    requires Synced(dark, storage, rootClasses)
    ensures SyncEffect(dark, storage, rootClasses) == (storage, rootClasses)
  {
    assert storage[THEME_KEY := ThemeValue(dark)] == storage;
    if dark {
      assert rootClasses + {DARK_CLASS} == rootClasses;
    } else {
      assert rootClasses - {DARK_CLASS} == rootClasses;
    }
  }

  /** The theme after the first render (which has `darkMode` true) and its effects: the mount
      effect, the sync effect for `true`, and, when the mount effect asked for light, the
      sync effect for `false`. The net effect is one write of the stored theme. */
  function AfterMount(storage: map<string, string>, rootClasses: set<string>): (r: (bool, map<string, string>, set<string>))
    ensures r.0 == ResolveDarkMode(StoredTheme(storage))
    ensures r.1 == storage[THEME_KEY := ThemeValue(r.0)]
    ensures r.2 == if r.0 then rootClasses + {DARK_CLASS} else rootClasses - {DARK_CLASS}
    ensures Synced(r.0, r.1, r.2)
  {
    var (dark, c1) := MountEffect(storage, rootClasses);
    var (s2, c2) := SyncEffect(true, storage, c1);
    if dark then
      assert c2 == rootClasses + {DARK_CLASS};
      (dark, s2, c2)
    else
      var (s3, c3) := SyncEffect(false, s2, c2);
      assert s3 == storage[THEME_KEY := "light"];
      assert c3 == rootClasses - {DARK_CLASS};
      (dark, s3, c3)
  }
}

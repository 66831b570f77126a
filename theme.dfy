/** The colour-theme provider (web/src/hooks/useTheme.tsx): the current theme, its copy in
    browser storage and the `light`/`dark` class on the document's root element. The browser's
    storage is a map field, the root class list a sequence field, and the dark-scheme media
    query a boolean argument. */
module Theme {
  import opened Options
  import opened Seqs

  const System: string := "system"
  const Light: string := "light"
  const Dark: string := "dark"
  const StorageKey: string := "theme"
  const DefaultTheme: string := System

  /** The three values of the `Theme` type. The stored value is cast to that type without a
      check, so the model's theme is any string. */
  predicate IsTheme(t: string)
  {
    t == System || t == Light || t == Dark
  }

  /** `localStorage.getItem('theme')`. */
  function StoredTheme(storage: map<string, string>): (r: Option<string>)
    ensures r.Some? <==> StorageKey in storage
    ensures r.Some? ==> r.value == storage[StorageKey]
  {
    if StorageKey in storage then Some(storage[StorageKey]) else None
  }

  /** The initial state: the stored value when it is truthy (present and non-empty),
      the provider's default otherwise. */
  function InitialTheme(stored: Option<string>, defaultTheme: string): string
  {
    if stored.Some? && stored.value != "" then stored.value else defaultTheme
  }

  /** `toggleTheme`'s choice: system -> light -> dark -> system; anything else -> system. */
  function NextTheme(t: string): (n: string)
    ensures IsTheme(n) && n != t
    ensures !IsTheme(t) ==> n == System
  {
    if t == System then Light else if t == Light then Dark else System
  }

  /** The mode the effect applies: the theme itself, or, for `system`, what the colour-scheme
      query reports. */
  function ResolvedMode(theme: string, prefersDark: bool): (mode: string)
    ensures mode == Dark <==> theme == Dark || (theme == System && prefersDark)
    ensures mode == Light <==> theme == Light || (theme == System && !prefersDark)
    ensures theme != System ==> mode == theme
    ensures IsTheme(theme) ==> mode == Light || mode == Dark
  {
    if theme == System then (if prefersDark then Dark else Light) else theme
  }

  predicate IsMode(c: string)
  {
    c == Light || c == Dark
  }

  /** `classList.remove('light', 'dark')`. */
  function RemoveModes(classes: seq<string>): (r: seq<string>)
    ensures IsSubseq(r, classes)
    ensures forall c :: c in r <==> c in classes && !IsMode(c)
  {
    FilterIsSubseq((c: string) => !IsMode(c), classes);
    Filter((c: string) => !IsMode(c), classes)
  }

  /** `classList.add(t)`: appended unless already present. */
  function AddClass(classes: seq<string>, t: string): (r: seq<string>)
    ensures t in r
    ensures forall c :: c != t ==> (c in r <==> c in classes)
    ensures IsSubseq(classes, r)
  {
    if t in classes then
      SubseqReflexive(classes);
      classes
    else
      assert IsSubseq(classes, classes + [t]) by { AppendKeepsSubseq(classes, t); }
      classes + [t]
  }

  lemma {:induction false} AppendKeepsSubseq(s: seq<string>, t: string)
    ensures IsSubseq(s, s + [t])
  {
    if s != [] {
      AppendKeepsSubseq(s[1..], t);
      assert (s + [t])[1..] == s[1..] + [t];
    }
  }

  /** The root's class list after `apply(t)`. */
  function ApplyMode(classes: seq<string>, t: string): (r: seq<string>)
    ensures t in r
    ensures forall c :: IsMode(c) && c != t ==> c !in r
    ensures forall c :: !IsMode(c) && c != t ==> (c in r <==> c in classes)
  {
    AddClass(RemoveModes(classes), t)
  }

  /** Applying `light` or `dark` leaves exactly one of the two on the root. */
  lemma ApplyLeavesOneMode(classes: seq<string>, t: string)
    requires IsMode(t)
    ensures (Light in ApplyMode(classes, t)) != (Dark in ApplyMode(classes, t))
    ensures t in ApplyMode(classes, t)
  {
  }

  /** Applying the same mode twice gives the same class list as applying it once. */
  lemma ApplyIdempotent(classes: seq<string>, t: string)
    ensures ApplyMode(ApplyMode(classes, t), t) == ApplyMode(classes, t)
  {
    var p := (c: string) => !IsMode(c);
    var once := ApplyMode(classes, t);
    var removed := RemoveModes(classes);
    forall i | 0 <= i < |removed| ensures p(removed[i]) {
      assert removed[i] in removed;
    }
    FilterKeepsAll(p, removed);
    if t in removed {
      assert once == removed;
    } else {
      assert once == removed + [t];
      FilterConcat(p, removed, [t]);
      if IsMode(t) {
        assert Filter(p, [t]) == [];
        assert RemoveModes(once) == removed;
      } else {
        assert Filter(p, [t]) == [t];
        assert RemoveModes(once) == once;
      }
    }
  }

  /** Toggling turns system -> light -> dark -> system, so three toggles from any of the three
      themes return to it, passing through the other two. */
  lemma ToggleCycles(t: string)
    requires IsTheme(t)
    ensures NextTheme(System) == Light && NextTheme(Light) == Dark && NextTheme(Dark) == System
    ensures NextTheme(NextTheme(NextTheme(t))) == t
    ensures {t, NextTheme(t), NextTheme(NextTheme(t))} == {System, Light, Dark}
  {
  }

  /** What a setter writes is what a new provider starts with: a stored theme survives a reload. */
  lemma StoredThemeSurvivesReload(storage: map<string, string>, t: string, defaultTheme: string)
    requires t != ""
    ensures InitialTheme(StoredTheme(storage[StorageKey := t]), defaultTheme) == t
  {
  }

  /** With nothing (or an empty string) stored the provider starts in its default, `system`
      unless the caller chose another. */
  lemma UnsetStorageGivesDefault(storage: map<string, string>, defaultTheme: string)
    requires StorageKey !in storage || storage[StorageKey] == ""
    ensures InitialTheme(StoredTheme(storage), defaultTheme) == defaultTheme
  {
  }

  class ThemeProvider {
    var theme: string
    /** `localStorage`. */
    var storage: map<string, string>
    /** `document.documentElement.classList`. */
    var rootClasses: seq<string>

    /** The stored value when truthy, `defaultTheme` (itself `system` by default) otherwise. */
    constructor (storage: map<string, string>, rootClasses: seq<string>, defaultTheme: string := DefaultTheme)
      ensures this.storage == storage && this.rootClasses == rootClasses
      ensures theme == InitialTheme(StoredTheme(storage), defaultTheme)
    {
      this.storage := storage;
      this.rootClasses := rootClasses;
      var stored := StoredTheme(storage);
      theme := if stored.Some? && stored.value != "" then stored.value else defaultTheme;
    }

    /** The stored value and the current theme agree. */
    predicate Persisted()
      reads this
    {
      StorageKey in storage && storage[StorageKey] == theme
    }

    /** `setTheme(t)`: write through to storage, then update the state. */
    method SetTheme(t: string)
      modifies this
      ensures storage == old(storage)[StorageKey := t] && theme == t
      ensures rootClasses == old(rootClasses)
      ensures Persisted()
    {
      storage := storage[StorageKey := t];
      theme := t;
    }

    /** `toggleTheme()`. */
    method ToggleTheme()
      modifies this
      ensures theme == NextTheme(old(theme))
      ensures storage == old(storage)[StorageKey := theme]
      ensures rootClasses == old(rootClasses)
      ensures Persisted()
    {
      var next := if theme == System then Light else if theme == Light then Dark else System;
      storage := storage[StorageKey := next];
      theme := next;
    }

    /** `apply(t)`: remove both modes from the root, then add `t`. */
    method Apply(t: string)
      modifies this
      ensures rootClasses == ApplyMode(old(rootClasses), t)
      ensures theme == old(theme) && storage == old(storage)
    {
      rootClasses := RemoveModes(rootClasses);
      if t !in rootClasses {
        rootClasses := rootClasses + [t];
      }
    }

    /** The effect that runs after every theme change; `prefersDark` is whether the
      `(prefers-color-scheme: dark)` query matches. */
    method SyncRoot(prefersDark: bool)
      modifies this
      ensures rootClasses == ApplyMode(old(rootClasses), ResolvedMode(theme, prefersDark))
      ensures theme == old(theme) && storage == old(storage)
    {
      if theme == System {
        Apply(if prefersDark then Dark else Light);
      } else {
        Apply(theme);
      }
    }
  }

  /** A first visit with empty storage and a dark system preference, then two toggles. */
  method ToggleScenario()
  {
    var provider := new ThemeProvider(map[], ["app"]);
    assert provider.theme == System;
    provider.SyncRoot(true);
    assert Dark in provider.rootClasses && Light !in provider.rootClasses && "app" in provider.rootClasses;
    provider.ToggleTheme();
    provider.SyncRoot(true);
    assert provider.theme == Light && provider.storage[StorageKey] == Light;
    assert Light in provider.rootClasses && Dark !in provider.rootClasses;
    provider.ToggleTheme();
    assert provider.theme == Dark && provider.Persisted();
  }
}

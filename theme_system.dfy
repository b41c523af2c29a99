/**
 * The theme registry: three built-in themes, a registry keyed by theme name
 * in insertion order, applying a theme (current theme, the document's
 * `dark` class and `data-theme` attribute, the saved preference, the
 * listeners), dark-mode toggling, custom themes merged over the default
 * theme, import and export.  The saved preference is a field standing for
 * the `app-theme` storage key; a listener is identified by a number.
 */
module ThemeSystem {
  import opened Wrappers
  import opened OrderedMap
  import JsText
  import opened ThemePalettes
  import ListenerSet

  datatype Theme = Theme(name: string, description: Option<string>, author: Option<string>, version: Option<string>,
                         colors: Groups, spacing: Flat, typography: Groups, shadows: Flat, borderRadius: Flat,
                         transitions: Groups, isDark: bool)

  /** `Partial<Theme>` as it arrives in `createCustomTheme` or from parsed JSON; `None` is a missing field. */
  datatype ThemeData = ThemeData(name: Option<string>, description: Option<string>, author: Option<string>,
                                 version: Option<string>, colors: Option<Groups>, spacing: Option<Flat>,
                                 typography: Option<Groups>, shadows: Option<Flat>, borderRadius: Option<Flat>,
                                 transitions: Option<Groups>, isDark: Option<bool>)

  const DefaultTheme := Theme("Default Light", Some("Clean and modern light theme"), Some("System"), Some("1.0.0"),
                              DefaultColors, DefaultSpacing, DefaultTypography, DefaultShadows, DefaultBorderRadius,
                              DefaultTransitions, false)

  const DarkTheme := Theme("Dark", Some("Elegant dark theme for low-light environments"), Some("System"), Some("1.0.0"),
                           DarkColors, DefaultSpacing, DefaultTypography, DarkShadows, DefaultBorderRadius,
                           DefaultTransitions, true)

  const HighContrastTheme := Theme("High Contrast", Some("High contrast theme for accessibility"), Some("System"), Some("1.0.0"),
                                   HighContrastColors, DefaultSpacing, DefaultTypography, HighContrastShadows, DefaultBorderRadius,
                                   DefaultTransitions, true)

  /** The registry after the constructor's three registrations. */
  function BuiltIns(): seq<Entry<string, Theme>> {
    Set(Set(Set([], DefaultTheme.name, DefaultTheme), DarkTheme.name, DarkTheme), HighContrastTheme.name, HighContrastTheme)
  }

  /** Exactly the three built-in themes are registered, in that order, each under its own name. */
  lemma BuiltInRegistry()
    ensures BuiltIns() == [Entry("Default Light", DefaultTheme), Entry("Dark", DarkTheme), Entry("High Contrast", HighContrastTheme)]
    ensures DistinctKeys(BuiltIns())
    ensures Values(BuiltIns()) == [DefaultTheme, DarkTheme, HighContrastTheme]
    ensures forall name :: HasKey(BuiltIns(), name) <==> name in {"Default Light", "Dark", "High Contrast"}
  {
    var t0: seq<Entry<string, Theme>> := [];
    assert !HasKey(t0, DefaultTheme.name);
    var t1 := Set(t0, DefaultTheme.name, DefaultTheme);
    assert t1 == [Entry("Default Light", DefaultTheme)];
    assert !HasKey(t1, DarkTheme.name) by {
      assert t1[0].key != "Dark";
    }
    var t2 := Set(t1, DarkTheme.name, DarkTheme);
    assert t2 == [Entry("Default Light", DefaultTheme), Entry("Dark", DarkTheme)];
    assert !HasKey(t2, HighContrastTheme.name) by {
      assert t2[0].key != "High Contrast" && t2[1].key != "High Contrast";
    }
    var t3 := Set(t2, HighContrastTheme.name, HighContrastTheme);
    assert t3 == [Entry("Default Light", DefaultTheme), Entry("Dark", DarkTheme), Entry("High Contrast", HighContrastTheme)];
    forall name ensures HasKey(t3, name) <==> name in {"Default Light", "Dark", "High Contrast"} {
      if name == "Default Light" {
        assert t3[0].key == name;
      } else if name == "Dark" {
        assert t3[1].key == name;
      } else if name == "High Contrast" {
        assert t3[2].key == name;
      }
    }
  }

  /** `value || fallback` on an optional string: a missing or empty value falls back. */
  function OrText(value: Option<string>, fallback: string): (r: string)
    ensures value.Some? && value.value != "" ==> r == value.value
    ensures value.None? || value == Some("") ==> r == fallback
  {
    if value.Some? && value.value != "" then value.value else fallback
  }

  function Spread<V>(base: map<string, V>, over: Option<map<string, V>>): (r: map<string, V>)
    ensures over.None? ==> r == base
    ensures over.Some? ==> r.Keys == base.Keys + over.value.Keys
    ensures over.Some? ==> forall k :: k in r ==> r[k] == if k in over.value then over.value[k] else base[k]
  {
    if over.None? then base else base + over.value
  }

  /** `createCustomTheme`: defaults for the text fields, each section shallow-merged over the default theme's. */
  function CustomTheme(data: ThemeData): (r: Theme)
    ensures r.name == OrText(data.name, "Custom Theme")
    ensures r.description == Some(OrText(data.description, "User-created custom theme"))
    ensures r.author == Some(OrText(data.author, "User")) && r.version == Some(OrText(data.version, "1.0.0"))
    ensures r.isDark <==> data.isDark == Some(true)
    ensures r.colors == Spread(DefaultTheme.colors, data.colors) && r.spacing == Spread(DefaultTheme.spacing, data.spacing)
    ensures r.typography == Spread(DefaultTheme.typography, data.typography)
    ensures r.shadows == Spread(DefaultTheme.shadows, data.shadows)
    ensures r.borderRadius == Spread(DefaultTheme.borderRadius, data.borderRadius)
    ensures r.transitions == Spread(DefaultTheme.transitions, data.transitions)
  {
    Theme(OrText(data.name, "Custom Theme"), Some(OrText(data.description, "User-created custom theme")),
          Some(OrText(data.author, "User")), Some(OrText(data.version, "1.0.0")),
          Spread(DefaultTheme.colors, data.colors), Spread(DefaultTheme.spacing, data.spacing),
          Spread(DefaultTheme.typography, data.typography), Spread(DefaultTheme.shadows, data.shadows),
          Spread(DefaultTheme.borderRadius, data.borderRadius), Spread(DefaultTheme.transitions, data.transitions),
          data.isDark == Some(true))
  }

  /** With no data the custom theme is the default theme's styling under the custom defaults, and light. */
  lemma EmptyCustomTheme()
    ensures CustomTheme(ThemeData(None, None, None, None, None, None, None, None, None, None, None))
      == DefaultTheme.(name := "Custom Theme", description := Some("User-created custom theme"), author := Some("User"))
  {
  }

  /** The merge is shallow: a colour group given in the data replaces the default group whole, other groups stay. */
  lemma CustomColorsShallow(data: ThemeData, group: string)
    requires data.colors.Some? && group in DefaultTheme.colors
    ensures group in data.colors.value ==> CustomTheme(data).colors[group] == data.colors.value[group]
    ensures group !in data.colors.value ==> CustomTheme(data).colors[group] == DefaultTheme.colors[group]
  {
  }

  /** The theme `toggleDarkMode` applies: any dark theme goes to Default Light, any light theme to Dark. */
  function ToggleTarget(current: Theme): (r: string)
    ensures current.isDark ==> r == DefaultTheme.name
    ensures !current.isDark ==> r == DarkTheme.name
  {
    if current.isDark then DefaultTheme.name else DarkTheme.name
  }

  /** High Contrast counts as dark, so toggling from it lands on Default Light rather than Dark. */
  lemma ToggleBuiltIns()
    ensures ToggleTarget(DefaultTheme) == "Dark"
    ensures ToggleTarget(DarkTheme) == "Default Light"
    ensures ToggleTarget(HighContrastTheme) == "Default Light"
    ensures ToggleTarget(HighContrastTheme) != HighContrastTheme.name
  {
  }

  /** `replace(/\s+/g, '-')`: every maximal run of whitespace becomes one '-'. */
  function HyphenateWhitespace(s: string): string
    decreases |s|
  {
    if s == [] then []
    else if JsText.IsWhitespace(s[0]) then "-" + HyphenateWhitespace(JsText.TrimStart(s[1..]))
    else [s[0]] + HyphenateWhitespace(s[1..])
  }

  /** No whitespace is left, and the result is no longer than the input. */
  lemma {:induction false} HyphenateRemovesWhitespace(s: string)
    ensures var r := HyphenateWhitespace(s);
      |r| <= |s| && forall k :: 0 <= k < |r| ==> !JsText.IsWhitespace(r[k])
    decreases |s|
  {
    if s != [] {
      if JsText.IsWhitespace(s[0]) {
        HyphenateRemovesWhitespace(JsText.TrimStart(s[1..]));
      } else {
        HyphenateRemovesWhitespace(s[1..]);
      }
    }
  }

  /** A whitespace-free string passes through unchanged. */
  lemma {:induction false} HyphenateIdentity(s: string)
    requires forall c :: c in s ==> !JsText.IsWhitespace(c)
    ensures HyphenateWhitespace(s) == s
  {
    if s != [] {
      assert s[0] in s;
      assert forall c :: c in s[1..] ==> c in s;
      HyphenateIdentity(s[1..]);
    }
  }

  /** The `data-theme` attribute: the name lower-cased, whitespace runs hyphenated. */
  function DataTheme(name: string): (r: string)
    ensures forall k :: 0 <= k < |r| ==> !JsText.IsWhitespace(r[k])
  {
    HyphenateRemovesWhitespace(JsText.ToLower(name));
    HyphenateWhitespace(JsText.ToLower(name))
  }

  /** A whitespace-free prefix passes through unchanged. */
  lemma {:induction false} HyphenatePrefix(a: string, b: string)
    requires forall c :: c in a ==> !JsText.IsWhitespace(c)
    ensures HyphenateWhitespace(a + b) == a + HyphenateWhitespace(b)
  {
    if a != [] {
      assert (a + b)[0] == a[0] && (a + b)[1..] == a[1..] + b;
      assert a[0] in a;
      assert forall c :: c in a[1..] ==> c in a;
      HyphenatePrefix(a[1..], b);
    } else {
      assert a + b == b;
    }
  }

  /** A single space before a whitespace-free word becomes one hyphen. */
  lemma HyphenateSpaceWord(word: string)
    requires word != [] && forall c :: c in word ==> !JsText.IsWhitespace(c)
    ensures HyphenateWhitespace(" " + word) == "-" + word
  {
    assert (" " + word)[1..] == word;
    assert word[0] in word;
    assert JsText.TrimStart(word) == word;
    HyphenateIdentity(word);
  }

  /** ToLower keeps whitespace where it is. */
  lemma LowerKeepsWhitespace(s: string)
    ensures forall k :: 0 <= k < |s| ==> (JsText.IsWhitespace(JsText.ToLower(s)[k]) <==> JsText.IsWhitespace(s[k]))
  {
  }

  /**
   * A two-word name such as "Default Light" or "High Contrast" becomes its
   * lower-cased words joined by one hyphen.
   */
  lemma DataThemeTwoWords(first: string, second: string)
    requires forall c :: c in first ==> !JsText.IsWhitespace(c)
    requires second != [] && forall c :: c in second ==> !JsText.IsWhitespace(c)
    ensures DataTheme(first + " " + second) == JsText.ToLower(first) + "-" + JsText.ToLower(second)
  {
    var lf, ls := JsText.ToLower(first), JsText.ToLower(second);
    assert JsText.ToLower(first + " " + second) == lf + (" " + ls);
    LowerKeepsWhitespace(first);
    LowerKeepsWhitespace(second);
    forall c | c in lf ensures !JsText.IsWhitespace(c) {
      var k :| 0 <= k < |lf| && lf[k] == c;
      assert first[k] in first;
    }
    forall c | c in ls ensures !JsText.IsWhitespace(c) {
      var k :| 0 <= k < |ls| && ls[k] == c;
      assert second[k] in second;
    }
    HyphenatePrefix(lf, " " + ls);
    HyphenateSpaceWord(ls);
    assert lf + ("-" + ls) == lf + "-" + ls;
  }

  class ThemeManager {
    var currentTheme: Theme
    var themes: seq<Entry<string, Theme>>
    /** The subscribed callbacks, a `Set` in insertion order. */
    var listeners: seq<nat>
    /** Every callback invocation so far: which listener, with which theme. */
    var calls: seq<(nat, Theme)>
    /** The `app-theme` preference in storage. */
    var savedTheme: Option<string>
    /** The root element's `data-theme` attribute (absent until a theme is applied) and `dark` class. */
    var dataThemeAttribute: Option<string>
    var darkClass: bool

    predicate Valid()
      reads this
    {
      DistinctKeys(themes) && forall k :: 0 <= k < |themes| ==> themes[k].key == themes[k].value.name
    }

    /** Registers the built-ins, then applies the saved preference when it names a registered theme. */
    constructor (stored: Option<string>)
      ensures Valid() && themes == BuiltIns() && listeners == [] && calls == []
      ensures stored.Some? && stored.value in {"Default Light", "Dark", "High Contrast"} ==> (
        var t := Get(BuiltIns(), stored.value).value;
         currentTheme == t && t.name == stored.value && dataThemeAttribute == Some(DataTheme(t.name))
         && darkClass == t.isDark && savedTheme == stored)
      ensures !(stored.Some? && stored.value in {"Default Light", "Dark", "High Contrast"}) ==>
        currentTheme == DefaultTheme && dataThemeAttribute == None && !darkClass && savedTheme == stored
    {
      currentTheme := DefaultTheme;
      themes := BuiltIns();
      listeners := [];
      calls := [];
      savedTheme := stored;
      dataThemeAttribute := None;
      darkClass := false;
      new;
      BuiltInRegistry();
      if stored.Some? && stored.value != "" && HasKey(themes, stored.value) {
        var _ := ApplyTheme(stored.value);
      }
    }

    /** Keys the theme by its name; an existing theme of that name is replaced in place. */
    method RegisterTheme(theme: Theme)
      requires Valid()
      modifies this
      ensures Valid()
      ensures themes == Set(old(themes), theme.name, theme)
      ensures forall name :: Get(themes, name) == if name == theme.name then Some(theme) else Get(old(themes), name)
      ensures currentTheme == old(currentTheme) && listeners == old(listeners) && calls == old(calls)
      ensures savedTheme == old(savedTheme) && dataThemeAttribute == old(dataThemeAttribute) && darkClass == old(darkClass)
    {
      var prev := themes;
      forall name ensures Get(Set(prev, theme.name, theme), name) == if name == theme.name then Some(theme) else Get(prev, name) {
        GetSet(prev, theme.name, theme, name);
      }
      GetSet(prev, theme.name, theme, theme.name);
      themes := Set(prev, theme.name, theme);
      forall k | 0 <= k < |themes| ensures themes[k].key == themes[k].value.name {
        if k >= |prev| {
          assert themes[k] == Entry(theme.name, theme);
        }
      }
    }

    method GetThemes() returns (r: seq<Theme>)
      ensures r == Values(themes)
    {
      r := Values(themes);
    }

    method GetCurrentTheme() returns (r: Theme)
      ensures r == currentTheme
    {
      r := currentTheme;
    }

    /** Unknown names change nothing and give false; a known name becomes current, is saved, styles the document and is announced. */
    method ApplyTheme(name: string) returns (applied: bool)
      modifies this
      ensures applied <==> HasKey(old(themes), name)
      ensures themes == old(themes) && listeners == old(listeners)
      ensures !applied ==> (currentTheme == old(currentTheme) && calls == old(calls) && savedTheme == old(savedTheme)
        && dataThemeAttribute == old(dataThemeAttribute) && darkClass == old(darkClass))
      ensures applied ==> (var t := Get(old(themes), name).value;
        currentTheme == t && savedTheme == Some(name) && dataThemeAttribute == Some(DataTheme(t.name))
        && darkClass == t.isDark && calls == old(calls) + ListenerSet.Notify(listeners, t))
    {
      var theme := Get(themes, name);
      if theme.None? {
        return false;
      }
      currentTheme := theme.value;
      darkClass := theme.value.isDark;
      dataThemeAttribute := Some(DataTheme(theme.value.name));
      savedTheme := Some(name);
      calls := calls + ListenerSet.Notify(listeners, theme.value);
      applied := true;
    }

    /** Adds the callback (once) and calls it at once with the current theme. */
    method Subscribe(listener: nat)
      modifies this
      ensures listeners == ListenerSet.Add(old(listeners), listener)
      ensures calls == old(calls) + [(listener, currentTheme)]
      ensures currentTheme == old(currentTheme) && themes == old(themes) && savedTheme == old(savedTheme)
      ensures dataThemeAttribute == old(dataThemeAttribute) && darkClass == old(darkClass)
    {
      listeners := ListenerSet.Add(listeners, listener);
      calls := calls + [(listener, currentTheme)];
    }

    /** The function `subscribe` returns: removes that callback only. */
    method Unsubscribe(listener: nat)
      modifies this
      ensures listeners == ListenerSet.Remove(old(listeners), listener)
      ensures currentTheme == old(currentTheme) && themes == old(themes) && calls == old(calls)
      ensures savedTheme == old(savedTheme) && dataThemeAttribute == old(dataThemeAttribute) && darkClass == old(darkClass)
    {
      listeners := ListenerSet.Remove(listeners, listener);
    }

    method CreateCustomTheme(data: ThemeData) returns (r: Theme)
      ensures r == CustomTheme(data)
    {
      r := CustomTheme(data);
    }

    /** The theme `exportTheme` serialises, or `None` (`null`) for an unregistered name. */
    method ExportTheme(name: string) returns (r: Option<Theme>)
      ensures r.None? <==> !HasKey(themes, name)
      ensures r == Get(themes, name)
    {
      r := Get(themes, name);
    }

    /** `parsed` is the outcome of `JSON.parse`: `None` when it throws or yields `null`; then nothing is registered. */
    method ImportTheme(parsed: Option<ThemeData>) returns (ok: bool)
      requires Valid()
      modifies this
      ensures Valid()
      ensures ok <==> parsed.Some?
      ensures !ok ==> themes == old(themes)
      ensures ok ==> themes == Set(old(themes), CustomTheme(parsed.value).name, CustomTheme(parsed.value))
      ensures currentTheme == old(currentTheme) && listeners == old(listeners) && calls == old(calls)
      ensures savedTheme == old(savedTheme) && dataThemeAttribute == old(dataThemeAttribute) && darkClass == old(darkClass)
    {
      if parsed.None? {
        return false;
      }
      RegisterTheme(CustomTheme(parsed.value));
      ok := true;
    }

    /** Applies Default Light when it is registered; otherwise nothing changes. */
    method ResetToDefault()
      modifies this
      ensures themes == old(themes) && listeners == old(listeners)
      ensures HasKey(old(themes), DefaultTheme.name) ==> (var t := Get(old(themes), DefaultTheme.name).value;
        currentTheme == t && savedTheme == Some(DefaultTheme.name) && dataThemeAttribute == Some(DataTheme(t.name))
        && darkClass == t.isDark && calls == old(calls) + ListenerSet.Notify(listeners, t))
      ensures !HasKey(old(themes), DefaultTheme.name) ==> (currentTheme == old(currentTheme) && calls == old(calls)
        && savedTheme == old(savedTheme) && dataThemeAttribute == old(dataThemeAttribute) && darkClass == old(darkClass))
    {
      var _ := ApplyTheme(DefaultTheme.name);
    }

    /** Applies Default Light from a dark theme and Dark from a light one. */
    method ToggleDarkMode()
      modifies this
      ensures themes == old(themes) && listeners == old(listeners)
      ensures var target := ToggleTarget(old(currentTheme));
        (HasKey(old(themes), target) ==> (var t := Get(old(themes), target).value;
          currentTheme == t && savedTheme == Some(target) && dataThemeAttribute == Some(DataTheme(t.name))
          && darkClass == t.isDark && calls == old(calls) + ListenerSet.Notify(listeners, t)))
        && (!HasKey(old(themes), target) ==> (currentTheme == old(currentTheme) && calls == old(calls)
          && savedTheme == old(savedTheme) && dataThemeAttribute == old(dataThemeAttribute) && darkClass == old(darkClass)))
    {
      var current := currentTheme;
      if current.isDark {
        var _ := ApplyTheme(DefaultTheme.name);
      } else {
        var _ := ApplyTheme(DarkTheme.name);
      }
    }
  }

  /** With the built-ins registered, toggling twice from either built-in light or dark theme comes back to it. */
  lemma ToggleTwice(theme: Theme)
    requires theme == DefaultTheme || theme == DarkTheme
    ensures var back := Get(BuiltIns(), ToggleTarget(Get(BuiltIns(), ToggleTarget(theme)).value));
      back == Some(theme)
  {
    BuiltInRegistry();
  }
}

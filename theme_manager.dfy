/**
 * Dark and light colour palettes and the current theme. The module-level
 * state of the theme manager (the current palette and the current mode) is the
 * state of one ThemeManager object.
 */
module Theme {

  const DarkTheme: map<string, string> := map[
    "root" := "#1E1E1E",
    "files_frame" := "#252526",
    "toolbar_frame" := "#252526",
    "subframe" := "#252526",
    "canvas_main" := "#1E1E20",
    "canvas_sec" := "#252526",
    "labels_bg" := "#252526",
    "labels_fg" := "#CCCCCC",
    "buttons_bg" := "#252526",
    "buttons_fg" := "#FFFFFF",
    "drawing_default" := "#F0F0F0",
    "drawing_secondary" := "#4FC3F7",
    "selection_preview_color" := "#4FC3F7",
    "selection_color" := "#FFD700"
  ]

  const LightTheme: map<string, string> := map[
    "root" := "#F3F3F3",
    "files_frame" := "#E1E1E1",
    "toolbar_frame" := "#E1E1E1",
    "subframe" := "#E1E1E1",
    "canvas_main" := "#FFFFFF",
    "canvas_sec" := "#F0F0F0",
    "labels_bg" := "#E1E1E1",
    "labels_fg" := "#333333",
    "buttons_bg" := "#E1E1E1",
    "buttons_fg" := "#333333",
    "drawing_default" := "#000000",
    "drawing_secondary" := "#0078D4",
    "selection_preview_color" := "#0078D4",
    "selection_color" := "#FFA500"
  ]

  /** The colour returned for a key that the palette does not define (magenta). */
  const ErrorColor := "#FF00FF"

  /** The keys every palette defines, each listed once. */
  const ThemeKeyList: seq<string> := [
    "root", "files_frame", "toolbar_frame", "subframe", "canvas_main", "canvas_sec",
    "labels_bg", "labels_fg", "buttons_bg", "buttons_fg",
    "drawing_default", "drawing_secondary", "selection_preview_color", "selection_color"
  ]

  const ThemeKeys: set<string> := set k | k in ThemeKeyList

  predicate Distinct(s: seq<string>) {
    forall i, j :: 0 <= i < j < |s| ==> s[i] != s[j]
  }

  /** A list without repetitions has as many elements as its set. */
  lemma {:induction false} DistinctCard(s: seq<string>)
    requires Distinct(s)
    ensures |set x | x in s| == |s|
  {
    if s != [] {
      DistinctCard(s[1..]);
      assert (set x | x in s) == {s[0]} + (set x | x in s[1..]);
    }
  }

  /** The palette selected by a mode: "dark" selects the dark one, anything else the light one. */
  function Palette(mode: string): (p: map<string, string>)
    ensures p == DarkTheme <==> mode == "dark"
    ensures p == LightTheme <==> mode != "dark"
  {
    assert DarkTheme["root"] != LightTheme["root"];
    if mode == "dark" then DarkTheme else LightTheme
  }

  /** Dictionary lookup with the error colour as default. */
  function Lookup(palette: map<string, string>, key: string): (c: string)
    ensures key in palette ==> c == palette[key]
    ensures key !in palette ==> c == ErrorColor
  {
    if key in palette then palette[key] else ErrorColor
  }

  predicate IsHexDigit(c: char) {
    '0' <= c <= '9' || 'A' <= c <= 'F'
  }

  /** A colour written "#RRGGBB" with upper-case hexadecimal digits. */
  predicate IsHexColor(c: string) {
    |c| == 7 && c[0] == '#' && forall i :: 1 <= i < 7 ==> IsHexDigit(c[i])
  }

  /** Both palettes define the same fourteen keys, so whether a key is known does not depend on the theme. */
  lemma ThemesShareKeys()
    ensures DarkTheme.Keys == ThemeKeys && LightTheme.Keys == ThemeKeys
    ensures |ThemeKeys| == 14
  {
    assert Distinct(ThemeKeyList);
    DistinctCard(ThemeKeyList);
  }

  /** No palette uses the error colour, so the error colour comes back exactly for unknown keys. */
  lemma ErrorColorIffUnknown(mode: string, key: string)
    ensures Lookup(Palette(mode), key) == ErrorColor <==> key !in ThemeKeys
  {
    ThemesShareKeys();
    if key in ThemeKeys {
      PaletteAvoidsErrorColor(Palette(mode), key);
    }
  }

  /** Neither palette maps a key to the error colour. */
  lemma PaletteAvoidsErrorColor(palette: map<string, string>, key: string)
    requires palette == DarkTheme || palette == LightTheme
    requires key in palette
    ensures palette[key] != ErrorColor
  {
    assert IsHexColor(palette[key]);
    assert palette[key][1] != 'F' || palette[key][2] != 'F' || palette[key][3] != '0' || palette[key][5] != 'F';
  }

  /** Every colour a lookup can return, the error colour included, is a "#RRGGBB" colour. */
  lemma LookupIsHexColor(mode: string, key: string)
    ensures IsHexColor(Lookup(Palette(mode), key))
  {
  }

  class ThemeManager {
    var currentTheme: map<string, string>
    var currentMode: string

    /** The current palette is the one the current mode selects. */
    ghost predicate Valid()
      reads this
    {
      currentTheme == Palette(currentMode)
    }

    /** The initial state: dark mode with the dark palette. */
    constructor ()
      ensures Valid()
      ensures currentMode == "dark" && currentTheme == DarkTheme
    {
      currentMode := "dark";
      currentTheme := DarkTheme;
    }

    /** Records `mode` as given and selects the dark palette for "dark", the light palette otherwise. */
    method SetTheme(mode: string)
      modifies this
      ensures Valid()
      ensures currentMode == mode
      ensures currentTheme == (if mode == "dark" then DarkTheme else LightTheme)
    {
      currentMode := mode;
      currentTheme := if mode == "dark" then DarkTheme else LightTheme;
    }

    /** The current palette's colour for `key`, or the error colour for a key the palette does not define. */
    function GetColor(key: string): (c: string)
      reads this
      requires Valid()
      ensures key in ThemeKeys ==> c == Palette(currentMode)[key]
      ensures key !in ThemeKeys ==> c == ErrorColor
      ensures IsHexColor(c)
    {
      ThemesShareKeys();
      LookupIsHexColor(currentMode, key);
      Lookup(currentTheme, key)
    }

    /** The mode recorded by the last SetTheme (initially "dark"). */
    function GetCurrentMode(): (m: string)
      reads this
      requires Valid()
      ensures m == currentMode
      ensures Palette(m) == currentTheme
    {
      currentMode
    }
  }
}

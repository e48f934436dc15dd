// The size and colour resolution of src/ui/utils.ts: a size prop (a number
// or a string) becomes a CSS length, looked up in the theme's dimension and
// font-size tables when it names one of their keys, and a colour prop is
// looked up in the theme's colour table.
module UiUtils {
  import opened JsText

  /** A size prop: `string | number`. */
  datatype Size = SizeText(text: string) | SizeNumber(n: int)

  /** The parts of a theme the resolution reads: the dimension table, the
      font size of each typography style, and the colour table. */
  datatype Theme = Theme(dimensions: map<string, string>, fontSizes: map<string, string>, colors: map<string, string>)

  /** The characters of the unit class [a-zA-Z-]. */
  predicate IsUnitChar(c: char)
  {
    IsLower(c) || IsUpper(c) || c == '-'
  }

  predicate AllDigits(s: string)
  {
    forall k :: 0 <= k < |s| ==> IsDigit(s[k])
  }

  predicate AllUnitChars(s: string)
  {
    forall k :: 0 <= k < |s| ==> IsUnitChar(s[k])
  }

  /** The length of the run of digits that starts the string. */
  function LeadingDigits(s: string): (k: nat)
    ensures k <= |s| && AllDigits(s[..k])
    ensures k < |s| ==> !IsDigit(s[k])
  {
    if s == [] || !IsDigit(s[0]) then 0
    else
      var k := LeadingDigits(s[1..]);
      assert s[..k + 1] == [s[0]] + s[1..][..k];
      k + 1
  }

  /** The match of /^(\d+)([a-zA-Z-]+)$/: the digits and the unit, or None. */
  function UnitMatch(s: string): Option<(string, string)>
  {
    var k := LeadingDigits(s);
    if 0 < k < |s| && AllUnitChars(s[k..]) then Some((s[..k], s[k..])) else None
  }

  /** The match succeeds exactly on a non-empty run of digits followed by a
      non-empty unit, and splits the string there. */
  lemma UnitMatchIff(s: string, num: string, unit: string)
    ensures UnitMatch(s) == Some((num, unit)) <==>
      s == num + unit && |num| > 0 && AllDigits(num) && |unit| > 0 && AllUnitChars(unit)
  {
    if s == num + unit && |num| > 0 && AllDigits(num) && |unit| > 0 && AllUnitChars(unit) {
      LeadingDigitsOfSplit(num, unit);
      assert s[..|num|] == num && s[|num|..] == unit;
    }
    if UnitMatch(s) == Some((num, unit)) {
      var k := LeadingDigits(s);
      assert s == s[..k] + s[k..];
    }
  }

  lemma {:induction false} LeadingDigitsOfSplit(num: string, unit: string)
    requires AllDigits(num) && |unit| > 0 && !IsDigit(unit[0])
    ensures LeadingDigits(num + unit) == |num|
  {
    if num != [] {
      assert (num + unit)[1..] == num[1..] + unit;
      LeadingDigitsOfSplit(num[1..], unit);
    }
  }

  /** The units of /\d+(px|em|rem|%|vh|vw|pt|pc|in|cm|mm|ex|ch|lh|rlh|vmin|vmax|deg|rad|turn|s|ms)$/. */
  const CssUnits: seq<string> := ["px", "em", "rem", "%", "vh", "vw", "pt", "pc", "in", "cm", "mm", "ex",
                                  "ch", "lh", "rlh", "vmin", "vmax", "deg", "rad", "turn", "s", "ms"]

  /** Whether the string ends with `unit` right after a digit. */
  predicate EndsWithUnit(s: string, unit: string)
  {
    |s| > |unit| && s[|s| - |unit|..] == unit && IsDigit(s[|s| - |unit| - 1])
  }

  /** The `hasUnits` test: a digit then one of the units ends the string. */
  predicate HasUnits(s: string)
  {
    exists k :: 0 <= k < |CssUnits| && EndsWithUnit(s, CssUnits[k])
  }

  /** A theme value used in place of a key: `calc(<num> * <value>)` when
      the value is set, and the digits and key as written otherwise. */
  function Scaled(num: string, unit: string, value: string): string
  {
    if value != "" then "calc(" + num + " * " + value + ")" else num + unit
  }

  /** The resolution of a non-empty size string. */
  function ParseText(s: string, theme: Option<Theme>): (r: string)
    requires s != ""
    ensures r != ""
  {
    match UnitMatch(s)
    case Some((num, unit)) =>
      if theme.Some? && unit in theme.value.dimensions then Scaled(num, unit, theme.value.dimensions[unit])
      else if theme.Some? && unit in theme.value.fontSizes then Scaled(num, unit, theme.value.fontSizes[unit])
      else num + unit
    case None =>
      if theme.Some? && s in theme.value.dimensions then
        (if theme.value.dimensions[s] != "" then theme.value.dimensions[s] else s + "px")
      else if theme.Some? && s in theme.value.fontSizes then
        (if theme.value.fontSizes[s] != "" then theme.value.fontSizes[s] else s + "px")
      else if HasUnits(s) then s
      else s + "px"
  }

  /** `parseSize(size, theme)`: a missing size, the empty string and 0 give
      "0"; any other number is taken as pixels; a string is resolved by
      `ParseText`. The result is never empty. */
  function ParseSize(size: Option<Size>, theme: Option<Theme>): (r: string)
    ensures r != ""
    ensures size.None? || size == Some(SizeText("")) || size == Some(SizeNumber(0)) ==> r == "0"
    ensures size.Some? && size.value.SizeNumber? && size.value.n != 0 ==> r == IntToString(size.value.n) + "px"
  {
    match size
    case None => "0"
    case Some(SizeNumber(n)) => if n == 0 then "0" else IntToString(n) + "px"
    case Some(SizeText(s)) => if s == "" then "0" else ParseText(s, theme)
  }

  /** Digits followed by a dimension key with a value scale that value; the
      dimension table is consulted before the font sizes. */
  lemma ScalesDimension(num: string, key: string, theme: Theme)
    requires |num| > 0 && AllDigits(num) && |key| > 0 && AllUnitChars(key)
    requires key in theme.dimensions && theme.dimensions[key] != ""
    ensures ParseSize(Some(SizeText(num + key)), Some(theme)) == "calc(" + num + " * " + theme.dimensions[key] + ")"
  {
    UnitMatchIff(num + key, num, key);
  }

  /** Digits followed by a typography key that is not a dimension key scale
      that style's font size. */
  lemma ScalesFontSize(num: string, key: string, theme: Theme)
    requires |num| > 0 && AllDigits(num) && |key| > 0 && AllUnitChars(key)
    requires key !in theme.dimensions && key in theme.fontSizes && theme.fontSizes[key] != ""
    ensures ParseSize(Some(SizeText(num + key)), Some(theme)) == "calc(" + num + " * " + theme.fontSizes[key] + ")"
  {
    UnitMatchIff(num + key, num, key);
  }

  /** Digits followed by a unit that is no theme key come back unchanged. */
  lemma KeepsPlainUnit(num: string, unit: string, theme: Option<Theme>)
    requires |num| > 0 && AllDigits(num) && |unit| > 0 && AllUnitChars(unit)
    requires theme.Some? ==> unit !in theme.value.dimensions && unit !in theme.value.fontSizes
    ensures ParseSize(Some(SizeText(num + unit)), theme) == num + unit
  {
    UnitMatchIff(num + unit, num, unit);
  }

  /** A bare key that does not start with a digit resolves to its dimension,
      or failing that to its font size, when that value is set. */
  lemma ResolvesBareKey(key: string, theme: Theme)
    requires |key| > 0 && !IsDigit(key[0])
    ensures key in theme.dimensions && theme.dimensions[key] != "" ==>
      ParseSize(Some(SizeText(key)), Some(theme)) == theme.dimensions[key]
    ensures key !in theme.dimensions && key in theme.fontSizes && theme.fontSizes[key] != "" ==>
      ParseSize(Some(SizeText(key)), Some(theme)) == theme.fontSizes[key]
  {
    assert LeadingDigits(key) == 0;
  }

  /** Any other string is kept when it already ends in a number with a CSS
      unit, and is taken as pixels otherwise. */
  lemma AppendsPixels(s: string, theme: Option<Theme>)
    requires s != "" && UnitMatch(s) == None
    requires theme.Some? ==> s !in theme.value.dimensions && s !in theme.value.fontSizes
    ensures HasUnits(s) ==> ParseSize(Some(SizeText(s)), theme) == s
    ensures !HasUnits(s) ==> ParseSize(Some(SizeText(s)), theme) == s + "px"
  {
  }

  /** `parseColor(color, theme)`: no colour or the empty string is
      "transparent"; a colour key with a value gives that value; anything
      else is used as written. */
  function ParseColor(color: Option<string>, theme: Option<Theme>): (r: string)
    ensures r != ""
    ensures color.None? || color == Some("") ==> r == "transparent"
    ensures (color.Some? && color.value != "" && theme.Some? && color.value in theme.value.colors &&
             theme.value.colors[color.value] != "") ==>
      r == theme.value.colors[color.value]
    ensures color.Some? && color.value != "" && (theme.None? || color.value !in theme.value.colors) ==>
      r == color.value
  {
    if color.None? || color.value == "" then "transparent"
    else if theme.Some? && color.value in theme.value.colors then
      (if theme.value.colors[color.value] != "" then theme.value.colors[color.value] else color.value)
    else color.value
  }

  /** The dimension table of the app's themes. */
  const Dimensions: map<string, string> := map[
    "none" := "0px", "xs" := "4px", "sm" := "6px", "md" := "10px",
    "lg" := "14px", "xl" := "20px", "xxl" := "24px", "xxxl" := "28px"]

  /** The font size of each typography style of the app's themes. */
  const FontSizes: map<string, string> := map[
    "displayLarge" := "40px", "displayMedium" := "36px", "displaySmall" := "32px",
    "headlineLarge" := "28px", "headlineMedium" := "24px", "headlineSmall" := "20px",
    "titleLarge" := "18px", "titleMedium" := "16px", "titleSmall" := "14px",
    "bodyLarge" := "16px", "bodyMedium" := "14px", "bodySmall" := "12px"]

  /** The light colour table. */
  const LightColors: map<string, string> := map[
    "primary" := "#F7647C", "onPrimary" := "#FFFFFF", "primaryContainer" := "#FDE2E6",
    "background" := "#F7F7F8", "onBackground" := "#1A1B1E", "surface" := "#FFFFFF",
    "onSurface" := "#B1B4B9", "onSurfaceVariant" := "#80858E", "outline" := "#E7E8E9",
    "error" := "#FF0000"]

  const LightTheme: Theme := Theme(Dimensions, FontSizes, LightColors)

  /** The percent sign lies outside the unit pattern's characters. */
  lemma PercentFailsUnitMatch()
    ensures UnitMatch("100%") == None
  {
    assert LeadingDigits("100%") == 3;
  }

  /** "100%" ends in the listed unit "%". */
  lemma PercentHasUnits()
    ensures HasUnits("100%")
  {
    assert EndsWithUnit("100%", CssUnits[3]);
  }

  /** "100%" names no theme key. */
  lemma PercentIsNoKey()
    ensures "100%" !in Dimensions && "100%" !in FontSizes
  {
    assert "100%"[0] == '1';
  }

  /** "100%" fails the unit pattern but ends in a CSS unit, so it stays. */
  lemma PercentStays()
    ensures ParseSize(Some(SizeText("100%")), Some(LightTheme)) == "100%"
  {
    PercentFailsUnitMatch();
    PercentHasUnits();
    PercentIsNoKey();
    AppendsPixels("100%", Some(LightTheme));
  }
}

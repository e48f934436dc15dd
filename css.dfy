// The style-prop helpers of src/ui/css.ts. Each `Apply*` collects CSS
// declarations for the props that are set, in a fixed order, into a local
// list and renders the list as one block: the declarations joined by "; "
// with a final ";", or nothing when the list is empty. Each helper is a
// method that pushes as the source does, proved equal to a function that
// states the declarations the props call for.
module Css {
  import opened JsText
  import opened UiUtils

  /** A size prop that is present and truthy: not 0 and not "". */
  predicate Truthy(v: Option<Size>)
  {
    v.Some? && v.value != SizeText("") && v.value != SizeNumber(0)
  }

  /** A string prop that is present and not empty. */
  predicate TruthyText(v: Option<string>)
  {
    v.Some? && v.value != ""
  }

  /** A number prop that is present and not 0. */
  predicate TruthyNumber(v: Option<int>)
  {
    v.Some? && v.value != 0
  }

  /** `name: <parsed size>` when the prop is truthy, nothing otherwise. */
  function SizeDecl(name: string, v: Option<Size>, theme: Option<Theme>): (r: seq<string>)
    ensures |r| == B(Truthy(v))
  {
    if Truthy(v) then [name + ": " + ParseSize(v, theme)] else []
  }

  /** The rendered block: `styles.join('; ') + ';'`, or empty. */
  function Render(styles: seq<string>): (r: string)
  {
    if styles == [] then "" else Join(styles, "; ") + ";"
  }

  /** A block is empty exactly when there are no declarations; otherwise it
      starts with the first declaration and ends with the last and a ";". */
  lemma RenderShape(styles: seq<string>)
    ensures Render(styles) == "" <==> styles == []
    ensures styles != [] ==>
      |styles[0]| < |Render(styles)| && Render(styles)[..|styles[0]|] == styles[0] &&
      Render(styles)[|Render(styles)| - 1] == ';'
  {
    if styles != [] {
      JoinEnds(styles, "; ");
      var j := Join(styles, "; ");
      assert (j + ";")[..|styles[0]|] == j[..|styles[0]|];
    }
  }

  // ---- spacing ----

  datatype SpacingProps = SpacingProps(
    p: Option<Size>, pt: Option<Size>, pr: Option<Size>, pb: Option<Size>, pl: Option<Size>,
    ph: Option<Size>, pv: Option<Size>,
    m: Option<Size>, mt: Option<Size>, mr: Option<Size>, mb: Option<Size>, ml: Option<Size>,
    gap: Option<Size>, r: Option<Size>)

  /** The padding declarations of `ph` and `pv`: left then right, top then
      bottom, each pair with the one parsed size. */
  function PairDecl(first: string, second: string, v: Option<Size>, theme: Option<Theme>): (d: seq<string>)
    ensures |d| == 2 * B(Truthy(v))
    ensures Truthy(v) ==> d[0] == first + ": " + ParseSize(v, theme) && d[1] == second + ": " + ParseSize(v, theme)
  {
    if Truthy(v) then [first + ": " + ParseSize(v, theme), second + ": " + ParseSize(v, theme)] else []
  }

  /** The declarations the spacing props call for, in the source's order. */
  function SpacingDecls(props: SpacingProps, theme: Option<Theme>): seq<string>
  {
    SizeDecl("padding", props.p, theme) + SizeDecl("padding-top", props.pt, theme) +
    SizeDecl("padding-right", props.pr, theme) + SizeDecl("padding-bottom", props.pb, theme) +
    SizeDecl("padding-left", props.pl, theme) +
    PairDecl("padding-left", "padding-right", props.ph, theme) +
    PairDecl("padding-top", "padding-bottom", props.pv, theme) +
    SizeDecl("margin", props.m, theme) + SizeDecl("margin-top", props.mt, theme) +
    SizeDecl("margin-right", props.mr, theme) + SizeDecl("margin-bottom", props.mb, theme) +
    SizeDecl("margin-left", props.ml, theme) +
    SizeDecl("gap", props.gap, theme) + SizeDecl("border-radius", props.r, theme)
  }

  predicate AnySpacing(props: SpacingProps)
  {
    Truthy(props.p) || Truthy(props.pt) || Truthy(props.pr) || Truthy(props.pb) || Truthy(props.pl) ||
    Truthy(props.ph) || Truthy(props.pv) || Truthy(props.m) || Truthy(props.mt) || Truthy(props.mr) ||
    Truthy(props.mb) || Truthy(props.ml) || Truthy(props.gap) || Truthy(props.r)
  }

  function B(b: bool): nat { if b then 1 else 0 }

  /** One declaration per truthy prop, two each for `ph` and `pv`; so the
      block is empty exactly when no spacing prop is truthy. */
  lemma SpacingCount(props: SpacingProps, theme: Option<Theme>)
    ensures |SpacingDecls(props, theme)| ==
      B(Truthy(props.p)) + B(Truthy(props.pt)) + B(Truthy(props.pr)) + B(Truthy(props.pb)) + B(Truthy(props.pl)) +
      2 * B(Truthy(props.ph)) + 2 * B(Truthy(props.pv)) +
      B(Truthy(props.m)) + B(Truthy(props.mt)) + B(Truthy(props.mr)) + B(Truthy(props.mb)) + B(Truthy(props.ml)) +
      B(Truthy(props.gap)) + B(Truthy(props.r))
    ensures Render(SpacingDecls(props, theme)) == "" <==> !AnySpacing(props)
  {
    RenderShape(SpacingDecls(props, theme));
  }

  /** With only `ph` set, the declarations are the left and then the right
      padding, of the one parsed size. */
  lemma HorizontalPadding(v: Option<Size>, theme: Option<Theme>)
    requires Truthy(v)
    ensures SpacingDecls(SpacingProps(None, None, None, None, None, v, None, None, None, None, None, None, None, None), theme) ==
      ["padding-left: " + ParseSize(v, theme), "padding-right: " + ParseSize(v, theme)]
  {
    var none: Option<Size> := None;
    assert SizeDecl("padding", none, theme) == [];
    var d := SpacingDecls(SpacingProps(None, None, None, None, None, v, None, None, None, None, None, None, None, None), theme);
    assert d == PairDecl("padding-left", "padding-right", v, theme);
    assert "padding-left" + ": " == "padding-left: " && "padding-right" + ": " == "padding-right: ";
  }

  /** Two declarations render as `a; b;`. */
  lemma RenderTwo(a: string, b: string)
    ensures Render([a, b]) == a + "; " + b + ";"
  {
    assert [a, b][..1] == [a];
    assert Join([a], "; ") == a;
    assert Join([a, b], "; ") == Join([a], "; ") + "; " + b;
  }

  /** `if (v) styles.push(`name: ${parseSize(v)}`)`. */
  method PushSize(styles: seq<string>, name: string, v: Option<Size>, theme: Option<Theme>) returns (r: seq<string>)
    ensures r == styles + SizeDecl(name, v, theme)
  {
    r := styles;
    if Truthy(v) {
      r := r + [name + ": " + ParseSize(v, theme)];
    }
  }

  /** `if (v) { const size = parseSize(v); styles.push(`first: ${size}`, `second: ${size}`); }`. */
  method PushPair(styles: seq<string>, first: string, second: string, v: Option<Size>, theme: Option<Theme>) returns (r: seq<string>)
    ensures r == styles + PairDecl(first, second, v, theme)
  {
    r := styles;
    if Truthy(v) {
      var size := ParseSize(v, theme);
      r := r + [first + ": " + size, second + ": " + size];
    }
  }

  method ApplySpacingProps(props: SpacingProps, theme: Option<Theme>) returns (css: string)
    ensures css == Render(SpacingDecls(props, theme))
  {
    var styles: seq<string> := [];
    styles := PushSize(styles, "padding", props.p, theme);
    assert styles == SizeDecl("padding", props.p, theme);
    styles := PushSize(styles, "padding-top", props.pt, theme);
    styles := PushSize(styles, "padding-right", props.pr, theme);
    styles := PushSize(styles, "padding-bottom", props.pb, theme);
    styles := PushSize(styles, "padding-left", props.pl, theme);
    styles := PushPair(styles, "padding-left", "padding-right", props.ph, theme);
    styles := PushPair(styles, "padding-top", "padding-bottom", props.pv, theme);
    styles := PushSize(styles, "margin", props.m, theme);
    styles := PushSize(styles, "margin-top", props.mt, theme);
    styles := PushSize(styles, "margin-right", props.mr, theme);
    styles := PushSize(styles, "margin-bottom", props.mb, theme);
    styles := PushSize(styles, "margin-left", props.ml, theme);
    styles := PushSize(styles, "gap", props.gap, theme);
    styles := PushSize(styles, "border-radius", props.r, theme);
    css := if |styles| > 0 then Join(styles, "; ") + ";" else "";
  }

  // ---- the other declaration kinds ----

  /** A fixed declaration when the flag is set. */
  function FlagDecl(decl: string, flag: bool): (r: seq<string>)
    ensures |r| == B(flag)
  {
    if flag then [decl] else []
  }

  /** `name: <n>` when the number prop is truthy. */
  function NumberDecl(name: string, v: Option<int>): (r: seq<string>)
    ensures |r| == B(TruthyNumber(v))
  {
    if TruthyNumber(v) then [name + ": " + IntToString(v.value)] else []
  }

  /** `name: <text>` when the string prop is truthy. */
  function TextDecl(name: string, v: Option<string>): (r: seq<string>)
    ensures |r| == B(TruthyText(v))
  {
    if TruthyText(v) then [name + ": " + v.value] else []
  }

  /** `name: <resolved colour>` when the colour prop is truthy. */
  function ColorDecl(name: string, v: Option<string>, theme: Option<Theme>): (r: seq<string>)
    ensures |r| == B(TruthyText(v))
  {
    if TruthyText(v) then [name + ": " + ParseColor(v, theme)] else []
  }

  method PushFlag(styles: seq<string>, decl: string, flag: bool) returns (r: seq<string>)
    ensures r == styles + FlagDecl(decl, flag)
  {
    r := styles;
    if flag {
      r := r + [decl];
    }
  }

  method PushNumber(styles: seq<string>, name: string, v: Option<int>) returns (r: seq<string>)
    ensures r == styles + NumberDecl(name, v)
  {
    r := styles;
    if TruthyNumber(v) {
      r := r + [name + ": " + IntToString(v.value)];
    }
  }

  method PushText(styles: seq<string>, name: string, v: Option<string>) returns (r: seq<string>)
    ensures r == styles + TextDecl(name, v)
  {
    r := styles;
    if TruthyText(v) {
      r := r + [name + ": " + v.value];
    }
  }

  method PushColor(styles: seq<string>, name: string, v: Option<string>, theme: Option<Theme>) returns (r: seq<string>)
    ensures r == styles + ColorDecl(name, v, theme)
  {
    r := styles;
    if TruthyText(v) {
      r := r + [name + ": " + ParseColor(v, theme)];
    }
  }

  // ---- size ----

  datatype SizeProps = SizeProps(
    w: Option<Size>, h: Option<Size>, minw: Option<Size>, minh: Option<Size>, maxw: Option<Size>, maxh: Option<Size>)

  function SizeDecls(props: SizeProps, theme: Option<Theme>): seq<string>
  {
    SizeDecl("width", props.w, theme) + SizeDecl("height", props.h, theme) +
    SizeDecl("min-width", props.minw, theme) + SizeDecl("min-height", props.minh, theme) +
    SizeDecl("max-width", props.maxw, theme) + SizeDecl("max-height", props.maxh, theme)
  }

  /** One declaration per truthy size prop; the block is empty exactly when
      none is truthy. */
  lemma SizeCount(props: SizeProps, theme: Option<Theme>)
    ensures |SizeDecls(props, theme)| ==
      B(Truthy(props.w)) + B(Truthy(props.h)) + B(Truthy(props.minw)) +
      B(Truthy(props.minh)) + B(Truthy(props.maxw)) + B(Truthy(props.maxh))
    ensures Render(SizeDecls(props, theme)) == "" <==>
      !(Truthy(props.w) || Truthy(props.h) || Truthy(props.minw) ||
        Truthy(props.minh) || Truthy(props.maxw) || Truthy(props.maxh))
  {
    RenderShape(SizeDecls(props, theme));
  }

  method ApplySizeProps(props: SizeProps, theme: Option<Theme>) returns (css: string)
    ensures css == Render(SizeDecls(props, theme))
  {
    var styles: seq<string> := [];
    styles := PushSize(styles, "width", props.w, theme);
    assert styles == SizeDecl("width", props.w, theme);
    styles := PushSize(styles, "height", props.h, theme);
    styles := PushSize(styles, "min-width", props.minw, theme);
    styles := PushSize(styles, "min-height", props.minh, theme);
    styles := PushSize(styles, "max-width", props.maxw, theme);
    styles := PushSize(styles, "max-height", props.maxh, theme);
    css := if |styles| > 0 then Join(styles, "; ") + ";" else "";
  }

  // ---- layout ----

  datatype LayoutProps = LayoutProps(
    row: bool, col: bool,
    justifyStart: bool, justifyEnd: bool, justifyCenter: bool,
    justifyBetween: bool, justifyAround: bool, justifyEvenly: bool,
    itemsStart: bool, itemsEnd: bool, itemsCenter: bool, itemsBaseline: bool, itemsStretch: bool,
    wrap: bool, flex: Option<int>)

  /** The value paired with the first flag at or after `i` that is set, if
      any: a chain of conditional expressions read as a precedence list. */
  function FirstSet(flags: seq<bool>, values: seq<string>, i: nat): Option<string>
    requires |flags| == |values|
    decreases |flags| - i
  {
    if i >= |flags| then None
    else if flags[i] then Some(values[i])
    else FirstSet(flags, values, i + 1)
  }

  /** There is a value exactly when some flag from `i` on is set, and it is
      the value of a set flag with no set flag between `i` and it. */
  lemma {:induction false} FirstSetSpec(flags: seq<bool>, values: seq<string>, i: nat)
    requires |flags| == |values|
    decreases |flags| - i
    ensures FirstSet(flags, values, i).Some? <==> exists k :: i <= k < |flags| && flags[k]
    ensures FirstSet(flags, values, i).Some? ==>
      exists k :: i <= k < |flags| && flags[k] && values[k] == FirstSet(flags, values, i).value &&
        forall j :: i <= j < k ==> !flags[j]
  {
    if i < |flags| && !flags[i] {
      FirstSetSpec(flags, values, i + 1);
      if FirstSet(flags, values, i).Some? {
        var k :| i + 1 <= k < |flags| && flags[k] && values[k] == FirstSet(flags, values, i).value &&
          forall j :: i + 1 <= j < k ==> !flags[j];
        assert forall j :: i <= j < k ==> !flags[j];
      }
    }
  }

  function JustifyFlags(props: LayoutProps): seq<bool>
  {
    [props.justifyStart, props.justifyEnd, props.justifyCenter,
     props.justifyBetween, props.justifyAround, props.justifyEvenly]
  }

  const JustifyValues: seq<string> := ["flex-start", "flex-end", "center", "space-between", "space-around", "space-evenly"]

  function AlignFlags(props: LayoutProps): seq<bool>
  {
    [props.itemsStart, props.itemsEnd, props.itemsCenter, props.itemsBaseline, props.itemsStretch]
  }

  const AlignValues: seq<string> := ["flex-start", "flex-end", "center", "baseline", "stretch"]

  /** `name: <value>` when there is a value. */
  function OptionDecl(name: string, v: Option<string>): (r: seq<string>)
    ensures |r| == B(v.Some?)
  {
    if v.Some? then [name + ": " + v.value] else []
  }

  /** The declarations the layout props call for: nothing unless the box is
      a row or a column; otherwise flex display, the direction (a row wins
      over a column), at most one justify-content and one align-items by
      precedence, wrapping, and the flex factor whenever one is given. */
  function LayoutDecls(props: LayoutProps): seq<string>
  {
    if !props.row && !props.col then []
    else
      ["display: flex"] +
      [if props.row then "flex-direction: row" else "flex-direction: column"] +
      OptionDecl("justify-content", FirstSet(JustifyFlags(props), JustifyValues, 0)) +
      OptionDecl("align-items", FirstSet(AlignFlags(props), AlignValues, 0)) +
      FlagDecl("flex-wrap: wrap", props.wrap) +
      (if props.flex.Some? then ["flex: " + IntToString(props.flex.value)] else [])
  }

  /** A flex box starts with the display and direction declarations and
      carries one declaration per further property that is set; a flex
      factor of 0 is still emitted. */
  lemma LayoutShape(props: LayoutProps)
    ensures LayoutDecls(props) == [] <==> !props.row && !props.col
    ensures props.row || props.col ==>
      |LayoutDecls(props)| == 2 +
        B(props.justifyStart || props.justifyEnd || props.justifyCenter ||
          props.justifyBetween || props.justifyAround || props.justifyEvenly) +
        B(props.itemsStart || props.itemsEnd || props.itemsCenter || props.itemsBaseline || props.itemsStretch) +
        B(props.wrap) + B(props.flex.Some?)
    ensures props.row || props.col ==> LayoutDecls(props)[0] == "display: flex"
    ensures props.row ==> LayoutDecls(props)[1] == "flex-direction: row"
    ensures !props.row && props.col ==> LayoutDecls(props)[1] == "flex-direction: column"
    ensures (props.row || props.col) && props.flex == Some(0) ==>
      LayoutDecls(props)[|LayoutDecls(props)| - 1] == "flex: 0"
  {
    JustifyIsChain(props);
    AlignIsChain(props);
  }

  /** Over the justify flags, the first-set rule is the source's chain of
      conditionals: start, end, center, between, around, evenly. */
  lemma JustifyIsChain(props: LayoutProps)
    ensures FirstSet(JustifyFlags(props), JustifyValues, 0) ==
      if props.justifyStart then Some("flex-start")
      else if props.justifyEnd then Some("flex-end")
      else if props.justifyCenter then Some("center")
      else if props.justifyBetween then Some("space-between")
      else if props.justifyAround then Some("space-around")
      else if props.justifyEvenly then Some("space-evenly")
      else None
  {
    var f, v := JustifyFlags(props), JustifyValues;
    assert FirstSet(f, v, 5) == if props.justifyEvenly then Some("space-evenly") else FirstSet(f, v, 6);
    assert FirstSet(f, v, 4) == if props.justifyAround then Some("space-around") else FirstSet(f, v, 5);
    assert FirstSet(f, v, 3) == if props.justifyBetween then Some("space-between") else FirstSet(f, v, 4);
    assert FirstSet(f, v, 2) == if props.justifyCenter then Some("center") else FirstSet(f, v, 3);
    assert FirstSet(f, v, 1) == if props.justifyEnd then Some("flex-end") else FirstSet(f, v, 2);
    assert FirstSet(f, v, 0) == if props.justifyStart then Some("flex-start") else FirstSet(f, v, 1);
  }

  /** Over the align flags, the first-set rule is the chain start, end,
      center, baseline, stretch. */
  lemma AlignIsChain(props: LayoutProps)
    ensures FirstSet(AlignFlags(props), AlignValues, 0) ==
      if props.itemsStart then Some("flex-start")
      else if props.itemsEnd then Some("flex-end")
      else if props.itemsCenter then Some("center")
      else if props.itemsBaseline then Some("baseline")
      else if props.itemsStretch then Some("stretch")
      else None
  {
    var f, v := AlignFlags(props), AlignValues;
    assert FirstSet(f, v, 4) == if props.itemsStretch then Some("stretch") else FirstSet(f, v, 5);
    assert FirstSet(f, v, 3) == if props.itemsBaseline then Some("baseline") else FirstSet(f, v, 4);
    assert FirstSet(f, v, 2) == if props.itemsCenter then Some("center") else FirstSet(f, v, 3);
    assert FirstSet(f, v, 1) == if props.itemsEnd then Some("flex-end") else FirstSet(f, v, 2);
    assert FirstSet(f, v, 0) == if props.itemsStart then Some("flex-start") else FirstSet(f, v, 1);
  }

  /** The source's conditional chain for `justify-content`: the first set flag wins. */
  method JustifyContent(props: LayoutProps) returns (v: Option<string>)
    ensures v == FirstSet(JustifyFlags(props), JustifyValues, 0)
  {
    v :=
      if props.justifyStart then Some("flex-start")
      else if props.justifyEnd then Some("flex-end")
      else if props.justifyCenter then Some("center")
      else if props.justifyBetween then Some("space-between")
      else if props.justifyAround then Some("space-around")
      else if props.justifyEvenly then Some("space-evenly")
      else None;
    JustifyIsChain(props);
  }

  /** The source's conditional chain for `align-items`: the first set flag wins. */
  method AlignItems(props: LayoutProps) returns (v: Option<string>)
    ensures v == FirstSet(AlignFlags(props), AlignValues, 0)
  {
    v :=
      if props.itemsStart then Some("flex-start")
      else if props.itemsEnd then Some("flex-end")
      else if props.itemsCenter then Some("center")
      else if props.itemsBaseline then Some("baseline")
      else if props.itemsStretch then Some("stretch")
      else None;
    AlignIsChain(props);
  }

  method ApplyLayoutProps(props: LayoutProps) returns (css: string)
    ensures css == Render(LayoutDecls(props))
  {
    if !props.row && !props.col {
      return "";
    }
    var styles: seq<string> := ["display: flex"];
    if props.row {
      styles := styles + ["flex-direction: row"];
    } else if props.col {
      styles := styles + ["flex-direction: column"];
    }
    var justifyContent := JustifyContent(props);
    styles := PushOption(styles, "justify-content", justifyContent);
    var alignItems := AlignItems(props);
    styles := PushOption(styles, "align-items", alignItems);
    styles := PushFlag(styles, "flex-wrap: wrap", props.wrap);
    if props.flex.Some? {
      styles := styles + ["flex: " + IntToString(props.flex.value)];
    }
    assert styles == LayoutDecls(props);
    css := Join(styles, "; ") + ";";
  }

  method PushOption(styles: seq<string>, name: string, v: Option<string>) returns (r: seq<string>)
    ensures r == styles + OptionDecl(name, v)
  {
    r := styles;
    if v.Some? {
      r := r + [name + ": " + v.value];
    }
  }

  // ---- position ----

  datatype PositionProps = PositionProps(
    absolute: bool, relative: bool, fixed: bool, sticky: bool,
    t: Option<Size>, r: Option<Size>, b: Option<Size>, l: Option<Size>, zIdx: Option<int>)

  /** The position flags, in source order. */
  function PositionFlagDecls(props: PositionProps): (r: seq<string>)
    ensures |r| == B(props.absolute) + B(props.relative) + B(props.fixed) + B(props.sticky)
  {
    FlagDecl("position: absolute", props.absolute) + FlagDecl("position: relative", props.relative) +
    FlagDecl("position: fixed", props.fixed) + FlagDecl("position: sticky", props.sticky)
  }

  /** The offsets and the stacking order. */
  function PositionOffsetDecls(props: PositionProps, theme: Option<Theme>): seq<string>
  {
    SizeDecl("top", props.t, theme) + SizeDecl("right", props.r, theme) +
    SizeDecl("bottom", props.b, theme) + SizeDecl("left", props.l, theme) +
    NumberDecl("z-index", props.zIdx)
  }

  /** The position flags come first, ahead of the offsets and the z-index. */
  function PositionDecls(props: PositionProps, theme: Option<Theme>): seq<string>
  {
    PositionFlagDecls(props) + PositionOffsetDecls(props, theme)
  }

  /** One declaration per set flag and truthy offset; the block is empty
      exactly when nothing is set. */
  lemma PositionCount(props: PositionProps, theme: Option<Theme>)
    ensures |PositionDecls(props, theme)| ==
      B(props.absolute) + B(props.relative) + B(props.fixed) + B(props.sticky) +
      B(Truthy(props.t)) + B(Truthy(props.r)) + B(Truthy(props.b)) + B(Truthy(props.l)) + B(TruthyNumber(props.zIdx))
    ensures Render(PositionDecls(props, theme)) == "" <==>
      !(props.absolute || props.relative || props.fixed || props.sticky || Truthy(props.t) ||
        Truthy(props.r) || Truthy(props.b) || Truthy(props.l) || TruthyNumber(props.zIdx))
  {
    RenderShape(PositionDecls(props, theme));
  }

  /** Every set flag is emitted, in the order absolute, relative, fixed,
      sticky: absolute first when set, sticky last when set. */
  lemma PositionFlagOrder(props: PositionProps)
    ensures props.absolute ==> PositionFlagDecls(props)[0] == "position: absolute"
    ensures props.sticky ==> PositionFlagDecls(props)[|PositionFlagDecls(props)| - 1] == "position: sticky"
    ensures props.relative ==> "position: relative" in PositionFlagDecls(props)
    ensures props.fixed ==> "position: fixed" in PositionFlagDecls(props)
  {
  }

  method ApplyPositionProps(props: PositionProps, theme: Option<Theme>) returns (css: string)
    ensures css == Render(PositionDecls(props, theme))
  {
    var styles: seq<string> := [];
    styles := PushFlag(styles, "position: absolute", props.absolute);
    assert styles == FlagDecl("position: absolute", props.absolute);
    styles := PushFlag(styles, "position: relative", props.relative);
    styles := PushFlag(styles, "position: fixed", props.fixed);
    styles := PushFlag(styles, "position: sticky", props.sticky);
    assert styles == PositionFlagDecls(props);
    styles := PushOffsets(styles, props, theme);
    css := if |styles| > 0 then Join(styles, "; ") + ";" else "";
  }

  /** The offset and z-index pushes of `ApplyPositionProps`. */
  method PushOffsets(styles: seq<string>, props: PositionProps, theme: Option<Theme>) returns (r: seq<string>)
    ensures r == styles + PositionOffsetDecls(props, theme)
  {
    var offsets: seq<string> := [];
    offsets := PushSize(offsets, "top", props.t, theme);
    assert offsets == SizeDecl("top", props.t, theme);
    offsets := PushSize(offsets, "right", props.r, theme);
    offsets := PushSize(offsets, "bottom", props.b, theme);
    offsets := PushSize(offsets, "left", props.l, theme);
    offsets := PushNumber(offsets, "z-index", props.zIdx);
    r := styles + offsets;
  }

  // ---- colours ----

  datatype StyleProps = StyleProps(
    textColor: Option<string>, bgColor: Option<string>, borderColor: Option<string>, borderWidth: Option<Size>)

  function StyleDecls(props: StyleProps, theme: Option<Theme>): seq<string>
  {
    ColorDecl("color", props.textColor, theme) + ColorDecl("background-color", props.bgColor, theme) +
    ColorDecl("border-color", props.borderColor, theme) + SizeDecl("border-width", props.borderWidth, theme)
  }

  /** One declaration per truthy prop; the block is empty exactly when none is. */
  lemma StyleCount(props: StyleProps, theme: Option<Theme>)
    ensures |StyleDecls(props, theme)| ==
      B(TruthyText(props.textColor)) + B(TruthyText(props.bgColor)) +
      B(TruthyText(props.borderColor)) + B(Truthy(props.borderWidth))
    ensures Render(StyleDecls(props, theme)) == "" <==>
      !(TruthyText(props.textColor) || TruthyText(props.bgColor) ||
        TruthyText(props.borderColor) || Truthy(props.borderWidth))
  {
    RenderShape(StyleDecls(props, theme));
  }

  method ApplyStyleProps(props: StyleProps, theme: Option<Theme>) returns (css: string)
    ensures css == Render(StyleDecls(props, theme))
  {
    var styles: seq<string> := [];
    styles := PushColor(styles, "color", props.textColor, theme);
    assert styles == ColorDecl("color", props.textColor, theme);
    styles := PushColor(styles, "background-color", props.bgColor, theme);
    styles := PushColor(styles, "border-color", props.borderColor, theme);
    styles := PushSize(styles, "border-width", props.borderWidth, theme);
    css := if |styles| > 0 then Join(styles, "; ") + ";" else "";
  }

  // ---- transforms ----

  datatype TransformProps = TransformProps(
    x: Option<Size>, y: Option<Size>, z: Option<Size>,
    rotate: Option<Size>, rotateX: Option<Size>, rotateY: Option<Size>, rotateZ: Option<Size>,
    scale: Option<Size>, scaleX: Option<Size>, scaleY: Option<Size>,
    skew: Option<Size>, skewX: Option<Size>, skewY: Option<Size>)

  /** `name(<parsed size>)` when the prop is truthy. */
  function FunctionDecl(name: string, v: Option<Size>, theme: Option<Theme>): (r: seq<string>)
    ensures |r| == B(Truthy(v))
  {
    if Truthy(v) then [name + "(" + ParseSize(v, theme) + ")"] else []
  }

  /** The translation, when either axis is set; a missing axis is '0'. */
  function TranslateDecl(props: TransformProps, theme: Option<Theme>): (r: seq<string>)
    ensures |r| == B(Truthy(props.x) || Truthy(props.y))
  {
    if Truthy(props.x) || Truthy(props.y) then
      ["translate(" + (if Truthy(props.x) then ParseSize(props.x, theme) else "0") + ", " +
       (if Truthy(props.y) then ParseSize(props.y, theme) else "0") + ")"]
    else []
  }

  /** The transform functions the props call for, in the source's order;
      `z` is not read. */
  function Transforms(props: TransformProps, theme: Option<Theme>): seq<string>
  {
    TranslateDecl(props, theme) +
    FunctionDecl("rotate", props.rotate, theme) + FunctionDecl("rotateX", props.rotateX, theme) +
    FunctionDecl("rotateY", props.rotateY, theme) + FunctionDecl("rotateZ", props.rotateZ, theme) +
    FunctionDecl("scale", props.scale, theme) + FunctionDecl("scaleX", props.scaleX, theme) +
    FunctionDecl("scaleY", props.scaleY, theme) +
    FunctionDecl("skew", props.skew, theme) + FunctionDecl("skewX", props.skewX, theme) +
    FunctionDecl("skewY", props.skewY, theme)
  }

  /** All transform functions go into one `transform:` declaration, joined by
      spaces; with none there is no block. */
  function RenderTransform(transforms: seq<string>): string
  {
    if transforms == [] then "" else "transform: " + Join(transforms, " ") + ";"
  }

  /** The translation comes first exactly when an axis is set, with '0' for
      the missing one; setting only `z` gives no block at all. */
  lemma TransformShape(props: TransformProps, theme: Option<Theme>)
    ensures Truthy(props.x) || Truthy(props.y) ==>
      Transforms(props, theme)[0] == TranslateDecl(props, theme)[0]
    ensures Truthy(props.x) && !Truthy(props.y) ==>
      TranslateDecl(props, theme)[0] == "translate(" + ParseSize(props.x, theme) + ", " + "0" + ")"
    ensures |Transforms(props, theme)| ==
      B(Truthy(props.x) || Truthy(props.y)) + B(Truthy(props.rotate)) + B(Truthy(props.rotateX)) +
      B(Truthy(props.rotateY)) + B(Truthy(props.rotateZ)) + B(Truthy(props.scale)) + B(Truthy(props.scaleX)) +
      B(Truthy(props.scaleY)) + B(Truthy(props.skew)) + B(Truthy(props.skewX)) + B(Truthy(props.skewY))
    ensures RenderTransform(Transforms(props.(z := None), theme)) == RenderTransform(Transforms(props, theme))
  {
  }

  method ApplyTransformProps(props: TransformProps, theme: Option<Theme>) returns (css: string)
    ensures css == RenderTransform(Transforms(props, theme))
  {
    var transforms: seq<string> := [];
    if Truthy(props.x) || Truthy(props.y) {
      var x := if Truthy(props.x) then ParseSize(props.x, theme) else "0";
      var y := if Truthy(props.y) then ParseSize(props.y, theme) else "0";
      transforms := transforms + ["translate(" + x + ", " + y + ")"];
    }
    assert transforms == TranslateDecl(props, theme);
    transforms := PushFunction(transforms, "rotate", props.rotate, theme);
    transforms := PushFunction(transforms, "rotateX", props.rotateX, theme);
    transforms := PushFunction(transforms, "rotateY", props.rotateY, theme);
    transforms := PushFunction(transforms, "rotateZ", props.rotateZ, theme);
    transforms := PushFunction(transforms, "scale", props.scale, theme);
    transforms := PushFunction(transforms, "scaleX", props.scaleX, theme);
    transforms := PushFunction(transforms, "scaleY", props.scaleY, theme);
    transforms := PushFunction(transforms, "skew", props.skew, theme);
    transforms := PushFunction(transforms, "skewX", props.skewX, theme);
    transforms := PushFunction(transforms, "skewY", props.skewY, theme);
    css := if |transforms| > 0 then "transform: " + Join(transforms, " ") + ";" else "";
  }

  method PushFunction(transforms: seq<string>, name: string, v: Option<Size>, theme: Option<Theme>) returns (r: seq<string>)
    ensures r == transforms + FunctionDecl(name, v, theme)
  {
    r := transforms;
    if Truthy(v) {
      r := r + [name + "(" + ParseSize(v, theme) + ")"];
    }
  }

  // ---- animation ----

  datatype AnimationProps = AnimationProps(
    duration: Option<Size>, delay: Option<Size>, easing: Option<string>,
    iterationCount: Option<int>, direction: Option<string>, fillMode: Option<string>)

  function AnimationDecls(props: AnimationProps, theme: Option<Theme>): seq<string>
  {
    SizeDecl("animation-duration", props.duration, theme) + SizeDecl("animation-delay", props.delay, theme) +
    TextDecl("animation-timing-function", props.easing) +
    NumberDecl("animation-iteration-count", props.iterationCount) +
    TextDecl("animation-direction", props.direction) + TextDecl("animation-fill-mode", props.fillMode)
  }

  /** One declaration per truthy prop; the block is empty exactly when none is. */
  lemma AnimationCount(props: AnimationProps, theme: Option<Theme>)
    ensures |AnimationDecls(props, theme)| ==
      B(Truthy(props.duration)) + B(Truthy(props.delay)) + B(TruthyText(props.easing)) +
      B(TruthyNumber(props.iterationCount)) + B(TruthyText(props.direction)) + B(TruthyText(props.fillMode))
    ensures Render(AnimationDecls(props, theme)) == "" <==>
      !(Truthy(props.duration) || Truthy(props.delay) || TruthyText(props.easing) ||
        TruthyNumber(props.iterationCount) || TruthyText(props.direction) || TruthyText(props.fillMode))
  {
    RenderShape(AnimationDecls(props, theme));
  }

  method ApplyAnimationProps(props: AnimationProps, theme: Option<Theme>) returns (css: string)
    ensures css == Render(AnimationDecls(props, theme))
  {
    var styles: seq<string> := [];
    styles := PushSize(styles, "animation-duration", props.duration, theme);
    assert styles == SizeDecl("animation-duration", props.duration, theme);
    styles := PushSize(styles, "animation-delay", props.delay, theme);
    styles := PushText(styles, "animation-timing-function", props.easing);
    styles := PushNumber(styles, "animation-iteration-count", props.iterationCount);
    styles := PushText(styles, "animation-direction", props.direction);
    styles := PushText(styles, "animation-fill-mode", props.fillMode);
    css := if |styles| > 0 then Join(styles, "; ") + ";" else "";
  }
}

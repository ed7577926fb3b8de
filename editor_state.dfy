/**
 * The editor's tool state (`EditorState`) and the values derived from it:
 * the fallbacks used by the shape and text tools, the CSS styling of the text
 * overlay, and the CSS filter string of the live colour preview.
 * JavaScript's `a || b` is modelled explicitly: a number is falsy when it is 0
 * or absent, a string when it is empty or absent.
 */
module EditorStyle {
  import opened Wrappers
  import Decimal

  /**
   * The published tool state. The optional properties of the original
   * interface are `Option`s. The declared undo/redo history is never used and
   * is not part of the model.
   */
  datatype EditorState = EditorState(
    activeTool: string,
    brushColor: string,
    brushWidth: int,
    isDrawingMode: bool,
    zoomLevel: int,
    textColor: Option<string>,
    fontSize: Option<int>,
    fontWeight: Option<int>,
    fontSlant: Option<int>,
    shapeFillColor: Option<string>,
    shapeStrokeColor: Option<string>,
    shapeStrokeWidth: Option<int>,
    brightness: Option<int>,
    contrast: Option<int>,
    saturation: Option<int>)

  /** `value || fallback` for an optional number. */
  function OrNumber(value: Option<int>, fallback: int): (r: int)
    ensures (value.Some? && value.value != 0) ==> r == value.value
    ensures (value.None? || value.value == 0) ==> r == fallback
  {
    if value.Some? && value.value != 0 then value.value else fallback
  }

  /** `value || fallback` for an optional string. */
  function OrString(value: Option<string>, fallback: string): (r: string)
    ensures (value.Some? && value.value != "") ==> r == value.value
    ensures (value.None? || value.value == "") ==> r == fallback
  {
    if value.Some? && value.value != "" then value.value else fallback
  }

  /** The state the editor starts with. */
  function InitialState(): (s: EditorState)
    ensures s.activeTool == "brush" && s.brushColor == "#000000" && s.brushWidth == 5
    ensures s.fontSize == Some(16) && s.fontWeight == Some(60) && s.fontSlant == Some(0)
    ensures s.brightness == Some(100) && s.contrast == Some(100) && s.saturation == Some(100)
  {
    EditorState(
      activeTool := "brush", brushColor := "#000000", brushWidth := 5,
      isDrawingMode := true, zoomLevel := 1,
      textColor := Some("#000000"), fontSize := Some(16), fontWeight := Some(60), fontSlant := Some(0),
      shapeFillColor := Some("#000000"), shapeStrokeColor := Some("#000000"), shapeStrokeWidth := Some(2),
      brightness := Some(100), contrast := Some(100), saturation := Some(100))
  }

  /** One `{ property, value }` event of the properties panel. */
  datatype PropertyChange =
    | BrushColor(color: string)
    | BrushWidth(width: int)
    | TextColor(color: string)
    | FontSize(size: int)
    | FontWeight(weight: int)
    | FontSlant(slant: int)
    | ShapeFillColor(color: string)
    | ShapeStrokeColor(color: string)
    | ShapeStrokeWidth(width: int)
    | Brightness(level: int)
    | Contrast(level: int)
    | Saturation(level: int)
  {
    predicate IsFilter() {
      Brightness? || Contrast? || Saturation?
    }
  }

  /**
   * `{ ...state, [property]: value }`: the named property takes the value and
   * every other field keeps its old value.
   */
  function ApplyChange(s: EditorState, c: PropertyChange): (r: EditorState)
    ensures r.activeTool == s.activeTool && r.isDrawingMode == s.isDrawingMode && r.zoomLevel == s.zoomLevel
    ensures c.BrushColor? ==> r.brushColor == c.color && r.(brushColor := s.brushColor) == s
    ensures c.BrushWidth? ==> r.brushWidth == c.width && r.(brushWidth := s.brushWidth) == s
    ensures c.TextColor? ==> r.textColor == Some(c.color) && r.(textColor := s.textColor) == s
    ensures c.FontSize? ==> r.fontSize == Some(c.size) && r.(fontSize := s.fontSize) == s
    ensures c.FontWeight? ==> r.fontWeight == Some(c.weight) && r.(fontWeight := s.fontWeight) == s
    ensures c.FontSlant? ==> r.fontSlant == Some(c.slant) && r.(fontSlant := s.fontSlant) == s
    ensures c.ShapeFillColor? ==> r.shapeFillColor == Some(c.color) && r.(shapeFillColor := s.shapeFillColor) == s
    ensures c.ShapeStrokeColor? ==>
      r.shapeStrokeColor == Some(c.color) && r.(shapeStrokeColor := s.shapeStrokeColor) == s
    ensures c.ShapeStrokeWidth? ==>
      r.shapeStrokeWidth == Some(c.width) && r.(shapeStrokeWidth := s.shapeStrokeWidth) == s
    ensures c.Brightness? ==> r.brightness == Some(c.level) && r.(brightness := s.brightness) == s
    ensures c.Contrast? ==> r.contrast == Some(c.level) && r.(contrast := s.contrast) == s
    ensures c.Saturation? ==> r.saturation == Some(c.level) && r.(saturation := s.saturation) == s
  {
    match c
    case BrushColor(v) => s.(brushColor := v)
    case BrushWidth(v) => s.(brushWidth := v)
    case TextColor(v) => s.(textColor := Some(v))
    case FontSize(v) => s.(fontSize := Some(v))
    case FontWeight(v) => s.(fontWeight := Some(v))
    case FontSlant(v) => s.(fontSlant := Some(v))
    case ShapeFillColor(v) => s.(shapeFillColor := Some(v))
    case ShapeStrokeColor(v) => s.(shapeStrokeColor := Some(v))
    case ShapeStrokeWidth(v) => s.(shapeStrokeWidth := Some(v))
    case Brightness(v) => s.(brightness := Some(v))
    case Contrast(v) => s.(contrast := Some(v))
    case Saturation(v) => s.(saturation := Some(v))
  }

  /** The panel field a change writes; two changes of the same field overwrite each other. */
  function Field(c: PropertyChange): nat {
    match c
    case BrushColor(_) => 0 case BrushWidth(_) => 1 case TextColor(_) => 2
    case FontSize(_) => 3 case FontWeight(_) => 4 case FontSlant(_) => 5
    case ShapeFillColor(_) => 6 case ShapeStrokeColor(_) => 7 case ShapeStrokeWidth(_) => 8
    case Brightness(_) => 9 case Contrast(_) => 10 case Saturation(_) => 11
  }

  /** The last of two changes to one field wins; changes to different fields commute. */
  lemma ChangesCompose(s: EditorState, c1: PropertyChange, c2: PropertyChange)
    ensures Field(c1) == Field(c2) ==> ApplyChange(ApplyChange(s, c1), c2) == ApplyChange(s, c2)
    ensures Field(c1) != Field(c2) ==>
      ApplyChange(ApplyChange(s, c1), c2) == ApplyChange(ApplyChange(s, c2), c1)
  {
  }

  // ---- Shape tools: shape properties fall back to the brush ----

  /** `shapeStrokeColor || brushColor`. */
  function ShapeStrokeColorOf(s: EditorState): (c: string)
    ensures (s.shapeStrokeColor.Some? && s.shapeStrokeColor.value != "") ==> c == s.shapeStrokeColor.value
    ensures (s.shapeStrokeColor.None? || s.shapeStrokeColor.value == "") ==> c == s.brushColor
    ensures c == "" ==> s.brushColor == ""
  {
    OrString(s.shapeStrokeColor, s.brushColor)
  }

  /** `shapeFillColor || brushColor`. */
  function ShapeFillColorOf(s: EditorState): (c: string)
    ensures (s.shapeFillColor.Some? && s.shapeFillColor.value != "") ==> c == s.shapeFillColor.value
    ensures (s.shapeFillColor.None? || s.shapeFillColor.value == "") ==> c == s.brushColor
    ensures c == "" ==> s.brushColor == ""
  {
    OrString(s.shapeFillColor, s.brushColor)
  }

  /** `shapeStrokeWidth || brushWidth`. */
  function ShapeStrokeWidthOf(s: EditorState): (w: int)
    ensures (s.shapeStrokeWidth.Some? && s.shapeStrokeWidth.value != 0) ==> w == s.shapeStrokeWidth.value
    ensures (s.shapeStrokeWidth.None? || s.shapeStrokeWidth.value == 0) ==> w == s.brushWidth
    ensures w == 0 ==> s.brushWidth == 0
  {
    OrNumber(s.shapeStrokeWidth, s.brushWidth)
  }

  // ---- Text tool ----

  /** `getTextFontSize`: `fontSize || 16`, never 0. */
  function TextFontSize(s: EditorState): (size: int)
    ensures size != 0
    ensures size == 16 <==> (s.fontSize.None? || s.fontSize.value == 0 || s.fontSize.value == 16)
  {
    OrNumber(s.fontSize, 16)
  }

  /** `getTextColor`: `textColor || brushColor || '#000000'`, never empty. */
  function TextColorOf(s: EditorState): (c: string)
    ensures c != ""
    ensures s.brushColor != "" ==> c == RasterTextColor(s)
  {
    OrString(s.textColor, if s.brushColor != "" then s.brushColor else "#000000")
  }

  /** The colour the committed text is painted in: `textColor || brushColor`. */
  function RasterTextColor(s: EditorState): string {
    OrString(s.textColor, s.brushColor)
  }

  /** The variable-font weight: `fontWeight || 60`. */
  function EffectiveWeight(s: EditorState): int {
    OrNumber(s.fontWeight, 60)
  }

  /** The variable-font slant: `fontSlant || 0`, which is just the slant or 0. */
  function EffectiveSlant(s: EditorState): int {
    OrNumber(s.fontSlant, 0)
  }

  /** `getTextFontWeight`: the overlay's CSS weight bucket of the variable weight. */
  function TextFontWeight(s: EditorState): (css: string)
    ensures css == "300" <==> EffectiveWeight(s) <= 60
    ensures css == "400" <==> 60 < EffectiveWeight(s) <= 80
    ensures css == "600" <==> 80 < EffectiveWeight(s)
  {
    var weight := OrNumber(s.fontWeight, 60);
    if weight <= 60 then "300" else if weight <= 80 then "400" else "600"
  }

  /** `getTextFontStyle`: the overlay is italic exactly for a positive slant. */
  function TextFontStyle(s: EditorState): (css: string)
    ensures css == "italic" <==> (s.fontSlant.Some? && s.fontSlant.value > 0)
    ensures css != "italic" ==> css == "normal"
  {
    if s.fontSlant.Some? && s.fontSlant.value != 0 && s.fontSlant.value > 0 then "italic" else "normal"
  }

  /** The CSS font style of the committed text: `'oblique'` for a positive slant. */
  function RasterFontStyle(s: EditorState): (style: string)
    ensures style == "oblique" || style == "normal"
  {
    if EffectiveSlant(s) > 0 then "oblique" else "normal"
  }

  /** The overlay preview is slanted exactly when the committed text is. */
  lemma SlantAgrees(s: EditorState)
    ensures TextFontStyle(s) == "italic" <==> RasterFontStyle(s) == "oblique"
  {
  }

  /** The canvas `font` of the committed text: `${style} ${size}px strokeWeight, Arial, sans-serif`. */
  function RasterFont(s: EditorState): string {
    RasterFontStyle(s) + " " + Decimal.IntToString(TextFontSize(s)) + "px " + FontFamily
  }

  const FontFamily: string := "strokeWeight, Arial, sans-serif"

  // ---- Live filter preview ----

  /** `getFilterStyle`: the CSS filter applied to the canvas element while adjusting. */
  function FilterStyle(brightness: int, contrast: int, saturation: int): string {
    "brightness(" + Decimal.IntToString(brightness) + "%) contrast(" + Decimal.IntToString(contrast)
    + "%) saturate(" + Decimal.IntToString(saturation) + "%)"
  }

  /** Reads the three percentages back out of a filter string. */
  function ParseFilterStyle(css: string): Option<(int, int, int)> {
    var a := Decimal.StripPrefix("brightness(", css);
    if a.None? then None else
    var b := Decimal.ReadInt(a.value);
    if b.None? then None else
    var c := Decimal.StripPrefix("%) contrast(", b.value.1);
    if c.None? then None else
    var d := Decimal.ReadInt(c.value);
    if d.None? then None else
    var e := Decimal.StripPrefix("%) saturate(", d.value.1);
    if e.None? then None else
    var f := Decimal.ReadInt(e.value);
    if f.None? || f.value.1 != "%)" then None else
    Some((b.value.0, d.value.0, f.value.0))
  }

  /** `prefix`, then a printed number, then `tail`: stripping and reading gives back the number and `tail`. */
  lemma ReadAfterPrefix(prefix: string, n: int, tail: string)
    requires Decimal.Delimited(tail)
    ensures var a := Decimal.StripPrefix(prefix, prefix + (Decimal.IntToString(n) + tail));
      a.Some? && Decimal.ReadInt(a.value) == Some((n, tail))
  {
    Decimal.StripPrefixConcat(prefix, Decimal.IntToString(n) + tail);
    Decimal.ReadIntRoundTrip(n, tail);
  }

  /** The filter string carries exactly the three current percentages. */
  lemma FilterStyleRoundTrip(brightness: int, contrast: int, saturation: int)
    ensures ParseFilterStyle(FilterStyle(brightness, contrast, saturation)) == Some((brightness, contrast, saturation))
  {
    var b, c, s := Decimal.IntToString(brightness), Decimal.IntToString(contrast), Decimal.IntToString(saturation);
    var tail2 := "%) saturate(" + (s + "%)");
    var tail1 := "%) contrast(" + (c + tail2);
    var css := "brightness(" + (b + tail1);
    assert FilterStyle(brightness, contrast, saturation) == css;
    ReadAfterPrefix("brightness(", brightness, tail1);
    ReadAfterPrefix("%) contrast(", contrast, tail2);
    ReadAfterPrefix("%) saturate(", saturation, "%)");
  }
}

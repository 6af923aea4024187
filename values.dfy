/**
 * The value types of the text-attribute stack used when writing PDF structure
 * tags: locations, colours, lengths, fonts, and the five kinds of text
 * attribute (strong, emphasis, sub/superscript, highlight, decoration).
 *
 * Everything that comes from outside the module (document locations, paints,
 * colours, the krilla identifiers) is an opaque identifier compared only for
 * equality. Lengths and sizes are real numbers: floating-point rounding is not
 * modelled.
 */
module TextValues {
  import opened Wrappers

  /** Where a formatting scope begins in the document; only compared for equality. */
  datatype Location = Location(id: nat)

  /** A flattened RGB colour, the result of converting a paint. */
  datatype Color = Color(id: nat)

  /** An abstract paint (fill) description of the document model. */
  datatype Paint = Paint(id: nat)

  /** `Smart<T>`: either chosen automatically or given explicitly. */
  datatype Smart<T> = Auto | Custom(value: T)

  /** A length with an absolute part and a part relative to the font size (em). */
  datatype Length = Length(abs: real, em: real)

  /** A text size given as a length (the payload of an explicit line height). */
  datatype TextSize = TextSize(length: Length)

  /** A length resolved against the font size of the run: `Length::at`. */
  function At(l: Length, size: real): real
  {
    l.abs + l.em * size
  }

  datatype ScriptKind = Sub | Super

  /** A font's metrics for one script kind, in em units. */
  datatype ScriptMetrics = ScriptMetrics(verticalOffset: real, height: real)

  /**
   * A font: its index, used as the memo key, and the script metrics that the
   * resolution reads. Two distinct fonts may share an index.
   */
  datatype Font = Font(index: nat, subscript: ScriptMetrics, superscript: ScriptMetrics)

  /** `ScriptKind::read_metrics(font.metrics())`: the metrics for the given kind. */
  function ReadMetrics(kind: ScriptKind, font: Font): ScriptMetrics
  {
    match kind
    case Sub => font.subscript
    case Super => font.superscript
  }

  /** A stroke of the document model: an optional paint and an optional thickness. */
  datatype Stroke = Stroke(paint: Smart<Paint>, thickness: Smart<Length>)

  datatype TextDecoKind = Underline | Overline | Strike

  /** The decoration types of the tagging library. */
  datatype TextDecorationType = UnderlineType | OverlineType | LineThroughType

  /** `TextDecoKind::to_krilla`. */
  function ToKrilla(kind: TextDecoKind): (r: TextDecorationType)
    ensures r == UnderlineType <==> kind == Underline
    ensures r == OverlineType <==> kind == Overline
    ensures r == LineThroughType <==> kind == Strike
  {
    match kind
    case Underline => UnderlineType
    case Overline => OverlineType
    case Strike => LineThroughType
  }

  /** Every decoration kind has its own tagging-library type. */
  lemma ToKrillaInjective(a: TextDecoKind, b: TextDecoKind)
    ensures ToKrilla(a) == ToKrilla(b) <==> a == b
  {
  }

  /** The stroke of a decoration as it is stored in the log. */
  datatype TextDecoStroke = TextDecoStroke(color: Option<Color>, thickness: Option<Length>)

  const DefaultStroke := TextDecoStroke(None, None)

  /**
   * `TextDecoStroke::from`: an automatic stroke gives the default (no colour,
   * no thickness); an explicit one keeps its explicit thickness and the colour
   * `toColor` gives for an explicit paint.
   */
  function StrokeFrom(stroke: Smart<Stroke>, toColor: Paint -> Option<Color>): (r: TextDecoStroke)
    ensures r.thickness.Some? <==> stroke.Custom? && stroke.value.thickness.Custom?
    ensures r.thickness.Some? ==> r.thickness.value == stroke.value.thickness.value
    ensures r.color.Some? ==> stroke.Custom? && stroke.value.paint.Custom?
                              && toColor(stroke.value.paint.value) == r.color
    ensures stroke.Custom? && stroke.value.paint.Custom? ==> r.color == toColor(stroke.value.paint.value)
  {
    match stroke
    case Auto => DefaultStroke
    case Custom(s) =>
      var color := match s.paint { case Custom(p) => toColor(p) case Auto => None };
      var thickness := match s.thickness { case Custom(t) => Some(t) case Auto => None };
      TextDecoStroke(color, thickness)
  }

  /** A sub- or superscript with its optional explicit baseline shift and line height. */
  datatype Script = ScriptStyle(kind: ScriptKind, baselineShift: Smart<Length>, lineheight: Smart<TextSize>)

  datatype TextDeco = TextDeco(kind: TextDecoKind, stroke: TextDecoStroke)

  /** One formatting annotation. */
  datatype TextAttr =
    | Strong
    | Emph
    | Script(script: Script)
    | Highlight(color: Option<Color>)
    | Deco(deco: TextDeco)

  /** `TextAttr::as_deco`: the decoration carried by an attribute, if it is one. */
  function AsDeco(a: TextAttr): (r: Option<TextDeco>)
    ensures r.Some? <==> a.Deco?
    ensures r.Some? ==> a == Deco(r.value)
  {
    if a.Deco? then Some(a.deco) else None
  }

  /** The five independent style axes. */
  datatype Axis = StrongAxis | EmphAxis | ScriptAxis | BackgroundAxis | DecoAxis

  /** The axis an attribute decides. */
  function AxisOf(a: TextAttr): Axis
  {
    match a
    case Strong => StrongAxis
    case Emph => EmphAxis
    case Script(_) => ScriptAxis
    case Highlight(_) => BackgroundAxis
    case Deco(_) => DecoAxis
  }

  /** An entry of the attribute log. */
  datatype Item = Item(loc: Location, attr: TextAttr)
}

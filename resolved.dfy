/**
 * The resolved style of a text run: one optional slot per axis. A slot that
 * is `None` was not decided by any entry of the log.
 */
module ResolvedAttrs {
  import opened Wrappers
  import opened TextValues

  /** A resolved script: absolute baseline shift and line height. */
  datatype ResolvedScript = ResolvedScript(baselineShift: real, lineheight: real)

  /** A resolved decoration: kind, optional colour, optional absolute thickness. */
  datatype ResolvedTextDeco = ResolvedTextDeco(kind: TextDecoKind, color: Option<Color>, thickness: Option<real>)

  datatype ResolvedTextAttrs = ResolvedTextAttrs(
    strong: Option<bool>,
    emph: Option<bool>,
    script: Option<ResolvedScript>,
    background: Option<Option<Color>>,
    deco: Option<ResolvedTextDeco>)

  /** `ResolvedTextAttrs::EMPTY`: no axis decided. */
  const EMPTY := ResolvedTextAttrs(None, None, None, None, None)

  /** The slot of the given axis is decided. */
  predicate Decided(r: ResolvedTextAttrs, axis: Axis)
  {
    match axis
    case StrongAxis => r.strong.Some?
    case EmphAxis => r.emph.Some?
    case ScriptAxis => r.script.Some?
    case BackgroundAxis => r.background.Some?
    case DecoAxis => r.deco.Some?
  }

  /** `ResolvedTextAttrs::is_empty`: equal to `EMPTY`, that is, no axis is decided. */
  predicate IsEmpty(r: ResolvedTextAttrs)
    ensures IsEmpty(r) <==>
      !Decided(r, StrongAxis) && !Decided(r, EmphAxis) && !Decided(r, ScriptAxis) &&
      !Decided(r, BackgroundAxis) && !Decided(r, DecoAxis)
  {
    r == EMPTY
  }

  /** `ResolvedTextAttrs::all_resolved`: every axis is decided. */
  predicate AllResolved(r: ResolvedTextAttrs)
    ensures AllResolved(r) <==>
      Decided(r, StrongAxis) && Decided(r, EmphAxis) && Decided(r, ScriptAxis) &&
      Decided(r, BackgroundAxis) && Decided(r, DecoAxis)
  {
    r.strong.Some? && r.emph.Some? && r.script.Some? && r.background.Some? && r.deco.Some?
  }

  /**
   * The slots decided in `newer` take precedence over those of `older`; an
   * undecided slot of `newer` is taken from `older`.
   */
  function Merge(newer: ResolvedTextAttrs, older: ResolvedTextAttrs): ResolvedTextAttrs
  {
    ResolvedTextAttrs(
      if newer.strong.Some? then newer.strong else older.strong,
      if newer.emph.Some? then newer.emph else older.emph,
      if newer.script.Some? then newer.script else older.script,
      if newer.background.Some? then newer.background else older.background,
      if newer.deco.Some? then newer.deco else older.deco)
  }

  /** Nothing older can change a fully resolved record: the early exit is sound. */
  lemma AllResolvedIsFixpoint(r: ResolvedTextAttrs, older: ResolvedTextAttrs)
    requires AllResolved(r)
    ensures Merge(r, older) == r
  {
  }

  /** Merging over an empty record changes nothing. */
  lemma MergeEmpty(r: ResolvedTextAttrs)
    ensures Merge(r, EMPTY) == r && Merge(EMPTY, r) == r
  {
  }

  /** Two records agree on one axis. */
  predicate SameAxis(a: ResolvedTextAttrs, b: ResolvedTextAttrs, axis: Axis)
  {
    match axis
    case StrongAxis => a.strong == b.strong
    case EmphAxis => a.emph == b.emph
    case ScriptAxis => a.script == b.script
    case BackgroundAxis => a.background == b.background
    case DecoAxis => a.deco == b.deco
  }
}

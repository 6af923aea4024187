/**
 * `ResolvedTextAttrs::resolve_nodes`: wrapping the tag identifiers of a text
 * run in structure groups for the style axes that are set. The span group
 * (inline layout attributes of section 14.8.5.4 of ISO 32000-1) is innermost,
 * the strong group around it, the emphasis group outermost.
 */
module TagTree {
  import opened Wrappers
  import opened TextValues
  import opened ResolvedAttrs
  import opened Resolution

  /** An identifier of already-emitted tagged content. */
  datatype Identifier = Identifier(id: nat)

  /**
   * The inline attributes of a span tag; an unset attribute is omitted.
   * The line height is always an explicit (custom) height.
   */
  datatype SpanAttrs = SpanAttrs(
    lineHeight: Option<real>,
    baselineShift: Option<real>,
    backgroundColor: Option<Color>,
    decorationType: Option<TextDecorationType>,
    decorationColor: Option<Color>,
    decorationThickness: Option<real>)

  datatype Tag = SpanTag(attrs: SpanAttrs) | StrongTag | EmTag

  /** The tag tree: identifiers at the leaves, tagged groups inside. */
  datatype Node = Leaf(id: Identifier) | Group(group: TagGroup)

  datatype TagGroup = TagGroup(tag: Tag, children: seq<Node>)

  /** No span attribute set. */
  const NoSpanAttrs := SpanAttrs(None, None, None, None, None, None)

  /**
   * The span group is needed when a script, a background or a decoration is
   * set. Without it no span attribute would be set; with it some attribute is
   * set unless the only set axis is a background without colour.
   */
  predicate HasSpan(attrs: ResolvedTextAttrs)
    ensures !HasSpan(attrs) ==> SpanAttrsOf(attrs) == NoSpanAttrs
    ensures HasSpan(attrs) && SpanAttrsOf(attrs) == NoSpanAttrs <==>
              attrs.script.None? && attrs.deco.None? && attrs.background == Some(None)
  {
    attrs.script.Some? || attrs.background.Some? || attrs.deco.Some?
  }

  /** The span attributes of a resolved style. */
  function SpanAttrsOf(attrs: ResolvedTextAttrs): (r: SpanAttrs)
    ensures r.lineHeight.Some? <==> attrs.script.Some?
    ensures r.lineHeight.Some? ==> r.lineHeight.value == attrs.script.value.lineheight
    ensures r.baselineShift.Some? <==> attrs.script.Some?
    ensures r.baselineShift.Some? ==> r.baselineShift.value == attrs.script.value.baselineShift
    ensures r.backgroundColor.Some? <==> attrs.background.Some? && attrs.background.value.Some?
    ensures r.backgroundColor.Some? ==> r.backgroundColor == attrs.background.value
    ensures r.decorationType.Some? <==> attrs.deco.Some?
    ensures r.decorationType.Some? ==> r.decorationType.value == ToKrilla(attrs.deco.value.kind)
    ensures r.decorationColor.Some? <==> attrs.deco.Some? && attrs.deco.value.color.Some?
    ensures r.decorationColor.Some? ==> r.decorationColor == attrs.deco.value.color
    ensures r.decorationThickness.Some? <==> attrs.deco.Some? && attrs.deco.value.thickness.Some?
    ensures r.decorationThickness.Some? ==> r.decorationThickness == attrs.deco.value.thickness
  {
    SpanAttrs(
      if attrs.script.Some? then Some(attrs.script.value.lineheight) else None,
      if attrs.script.Some? then Some(attrs.script.value.baselineShift) else None,
      if attrs.background.Some? then attrs.background.value else None,
      if attrs.deco.Some? then Some(ToKrilla(attrs.deco.value.kind)) else None,
      if attrs.deco.Some? then attrs.deco.value.color else None,
      if attrs.deco.Some? then attrs.deco.value.thickness else None)
  }

  /** Nesting rank of a tag: emphasis outermost, span innermost. */
  function Rank(t: Tag): nat
  {
    match t
    case EmTag => 0
    case StrongTag => 1
    case SpanTag(_) => 2
  }

  /**
   * The groups a text run is wrapped in, outermost first: one per axis that
   * is set, in the fixed order emphasis, strong, span.
   */
  function Layers(attrs: ResolvedTextAttrs): (r: seq<Tag>)
    ensures EmTag in r <==> attrs.emph == Some(true)
    ensures StrongTag in r <==> attrs.strong == Some(true)
    ensures SpanTag(SpanAttrsOf(attrs)) in r <==> HasSpan(attrs)
    ensures forall t :: t in r && t.SpanTag? ==> t == SpanTag(SpanAttrsOf(attrs))
    ensures forall i, j :: 0 <= i < j < |r| ==> Rank(r[i]) < Rank(r[j])
    ensures r == [] <==> !HasSpan(attrs) && attrs.strong != Some(true) && attrs.emph != Some(true)
  {
    (if attrs.emph == Some(true) then [EmTag] else [])
    + (if attrs.strong == Some(true) then [StrongTag] else [])
    + (if HasSpan(attrs) then [SpanTag(SpanAttrsOf(attrs))] else [])
  }

  /** Nest `inner` in one group per layer, the first layer outermost. */
  function Wrap(layers: seq<Tag>, inner: seq<Node>): seq<Node>
    decreases |layers|
  {
    if |layers| == 0 then inner
    else [Group(TagGroup(layers[0], Wrap(layers[1..], inner)))]
  }

  /** Adding an outer layer wraps the nested nodes in one more group. */
  lemma WrapCons(t: Tag, layers: seq<Tag>, inner: seq<Node>)
    ensures Wrap([t] + layers, inner) == [Group(TagGroup(t, Wrap(layers, inner)))]
  {
    assert ([t] + layers)[1..] == layers;
  }

  /** Strip `n` levels of single-group nesting. */
  function Unwrap(nodes: seq<Node>, n: nat): seq<Node>
    decreases n
  {
    if n == 0 then nodes
    else if |nodes| == 1 && nodes[0].Group? then Unwrap(nodes[0].group.children, n - 1)
    else []
  }

  /** The tags met on the way down `n` levels of single-group nesting. */
  function PathTags(nodes: seq<Node>, n: nat): seq<Tag>
    decreases n
  {
    if n == 0 then []
    else if |nodes| == 1 && nodes[0].Group? then [nodes[0].group.tag] + PathTags(nodes[0].group.children, n - 1)
    else []
  }

  /** The children as leaves, in their original order. */
  function Leaves(ids: seq<Identifier>): (r: seq<Node>)
    ensures |r| == |ids| && forall i :: 0 <= i < |ids| ==> r[i] == Leaf(ids[i])
  {
    seq(|ids|, i requires 0 <= i < |ids| => Leaf(ids[i]))
  }

  /** Wrapping is undone by unwrapping: the path holds exactly the layers, and the innermost nodes are `inner`. */
  lemma {:induction false} WrapRoundTrip(layers: seq<Tag>, inner: seq<Node>)
    ensures Unwrap(Wrap(layers, inner), |layers|) == inner
    ensures PathTags(Wrap(layers, inner), |layers|) == layers
    ensures |layers| > 0 ==> |Wrap(layers, inner)| == 1 && Wrap(layers, inner)[0].Group?
    decreases |layers|
  {
    if |layers| > 0 {
      WrapRoundTrip(layers[1..], inner);
    }
  }

  /** What has been built so far: bare children, or one group. */
  datatype Prev = Children(ids: seq<Identifier>) | PrevGroup(group: TagGroup)

  /** `Prev::into_nodes`: the bare children as leaves in order, or the one group. */
  function IntoNodes(prev: Prev): (r: seq<Node>)
    ensures prev.Children? ==> |r| == |prev.ids| && forall i :: 0 <= i < |r| ==> r[i] == Leaf(prev.ids[i])
    ensures prev.PrevGroup? ==> r == [Group(prev.group)]
  {
    match prev
    case Children(ids) => Leaves(ids)
    case PrevGroup(g) => [Group(g)]
  }

  /**
   * `resolve_nodes`: append to `accum` the children wrapped in the groups of
   * the set axes. With no axis set the children are appended as leaves, in
   * order; otherwise exactly one group node is appended.
   */
  method ResolveNodes(attrs: ResolvedTextAttrs, accum: seq<Node>, children: seq<Identifier>)
    returns (result: seq<Node>)
    ensures result == accum + Wrap(Layers(attrs), Leaves(children))
    ensures |result| >= |accum| && result[..|accum|] == accum
    ensures Layers(attrs) == [] ==> result == accum + Leaves(children)
    ensures Layers(attrs) != [] ==> |result| == |accum| + 1 && result[|accum|].Group?
  {
    var prev := Children(children);
    ghost var layers: seq<Tag> := [];
    if attrs.script.Some? || attrs.background.Some? || attrs.deco.Some? {
      var tag := SpanTag(SpanAttrsOf(attrs));
      WrapCons(tag, layers, Leaves(children));
      prev := PrevGroup(TagGroup(tag, IntoNodes(prev)));
      layers := [tag] + layers;
    }
    assert IntoNodes(prev) == Wrap(layers, Leaves(children));
    if attrs.strong == Some(true) {
      WrapCons(StrongTag, layers, Leaves(children));
      prev := PrevGroup(TagGroup(StrongTag, IntoNodes(prev)));
      layers := [StrongTag] + layers;
    }
    assert IntoNodes(prev) == Wrap(layers, Leaves(children));
    if attrs.emph == Some(true) {
      WrapCons(EmTag, layers, Leaves(children));
      prev := PrevGroup(TagGroup(EmTag, IntoNodes(prev)));
      layers := [EmTag] + layers;
    }
    assert IntoNodes(prev) == Wrap(layers, Leaves(children));
    assert layers == Layers(attrs);
    match prev
    case PrevGroup(g) => result := accum + [Group(g)];
    case Children(ids) => result := accum + Leaves(ids);
    WrapRoundTrip(layers, Leaves(children));
  }

  /** With strong, emphasis and a span axis set, the tree is Em, then Strong, then Span, then the leaves. */
  lemma NestingOrder(attrs: ResolvedTextAttrs, children: seq<Identifier>)
    requires attrs.strong == Some(true) && attrs.emph == Some(true) && HasSpan(attrs)
    ensures Wrap(Layers(attrs), Leaves(children)) ==
      [Group(TagGroup(EmTag,
        [Group(TagGroup(StrongTag,
          [Group(TagGroup(SpanTag(SpanAttrsOf(attrs)), Leaves(children)))]))]))]
  {
    var span := SpanTag(SpanAttrsOf(attrs));
    assert Layers(attrs) == [EmTag] + ([StrongTag] + ([span] + []));
    WrapCons(span, [], Leaves(children));
    WrapCons(StrongTag, [span], Leaves(children));
    WrapCons(EmTag, [StrongTag] + [span], Leaves(children));
  }

  /** The tag tree of an empty attribute log is the children themselves, as leaves. */
  lemma EmptyLogPassesThrough(children: seq<Identifier>, font: Font, size: real)
    ensures Wrap(Layers(Reference([], font, size)), Leaves(children)) == Leaves(children)
  {
    EmptyLogResolvesEmpty(font, size);
  }
}

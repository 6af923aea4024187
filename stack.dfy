/**
 * `TextAttrs`: the attribute stack of the text-tagging phase. It is an ordered
 * log of (location, attribute) entries, pushed when a formatting scope is
 * entered and removed by location when it is left, plus a one-slot memo of the
 * last resolution keyed on the run's font index and size.
 */
module TextStack {
  import opened Wrappers
  import opened TextValues
  import opened ResolvedAttrs
  import opened Resolution
  import opened Search

  /** The entries pushed for the scope at `loc`. */
  function AtLocation(loc: Location): Item -> bool
  {
    (it: Item) => it.loc == loc
  }

  /** Entry `i` is the most recent one for `loc`. */
  predicate IsLastMatch(items: seq<Item>, i: nat, loc: Location)
  {
    i < |items| && items[i].loc == loc && forall j :: i < j < |items| ==> items[j].loc != loc
  }

  /** The log has an entry for `loc`. */
  predicate HasLocation(items: seq<Item>, loc: Location)
  {
    exists j :: 0 <= j < |items| && items[j].loc == loc
  }

  /**
   * The log after popping `loc`: only the most recent entry for `loc` is
   * removed, the others keep their order; without such an entry the log is
   * unchanged.
   */
  function Without(items: seq<Item>, loc: Location): (r: seq<Item>)
    ensures !HasLocation(items, loc) ==> r == items
    ensures HasLocation(items, loc) ==>
              |r| == |items| - 1 &&
              exists i: nat :: IsLastMatch(items, i, loc) && r == items[..i] + items[i + 1..]
  {
    match RPosition(items, AtLocation(loc))
    case Some(i) =>
      assert IsLastMatch(items, i, loc);
      items[..i] + items[i + 1..]
    case None => items
  }

  /** Popping a scope right after pushing it restores the log, whatever was pushed before. */
  lemma PushThenPopRestores(items: seq<Item>, loc: Location, attr: TextAttr)
    ensures Without(items + [Item(loc, attr)], loc) == items
  {
    RPositionAppend(items, Item(loc, attr), AtLocation(loc));
    assert (items + [Item(loc, attr)])[..|items|] == items;
  }

  /** Some entry of the log is a decoration of a kind other than `kind`. */
  function HasConflictingDeco(items: seq<Item>, kind: TextDecoKind): (b: bool)
    ensures b <==> exists i :: 0 <= i < |items| && AsDeco(items[i].attr).Some? && AsDeco(items[i].attr).value.kind != kind
  {
    if |items| == 0 then false
    else
      var d := AsDeco(items[0].attr);
      (d.Some? && d.value.kind != kind) || HasConflictingDeco(items[1..], kind)
  }

  /** All decorations in the log have the same kind. */
  predicate SingleDecoKind(items: seq<Item>)
  {
    forall i, j :: 0 <= i < |items| && 0 <= j < |items| && items[i].attr.Deco? && items[j].attr.Deco? ==>
      items[i].attr.deco.kind == items[j].attr.deco.kind
  }

  /** A decoration that passes the conflict check leaves a single decoration kind in the log. */
  lemma NoConflictGivesSingleKind(items: seq<Item>, loc: Location, deco: TextDeco)
    requires !HasConflictingDeco(items, deco.kind)
    ensures SingleDecoKind(items + [Item(loc, Deco(deco))])
  {
    var all := items + [Item(loc, Deco(deco))];
    forall i | 0 <= i < |all| && all[i].attr.Deco?
      ensures all[i].attr.deco.kind == deco.kind
    {
      if i < |items| {
        assert all[i] == items[i];
        assert AsDeco(items[i].attr).Some?;
      }
    }
  }

  /** Popping a scope keeps a single decoration kind. */
  lemma PopKeepsSingleKind(items: seq<Item>, loc: Location)
    requires SingleDecoKind(items)
    ensures SingleDecoKind(Without(items, loc))
  {
    if HasLocation(items, loc) {
      var r := Without(items, loc);
      var i: nat :| IsLastMatch(items, i, loc) && r == items[..i] + items[i + 1..];
      forall a, b | 0 <= a < |r| && 0 <= b < |r| && r[a].attr.Deco? && r[b].attr.Deco?
        ensures r[a].attr.deco.kind == r[b].attr.deco.kind
      {
        var a' := if a < i then a else a + 1;
        var b' := if b < i then b else b + 1;
        assert r[a] == items[a'] && r[b] == items[b'];
      }
    }
  }

  /** `TextParams`: the memo key, the run's font index and size. */
  datatype TextParams = TextParams(fontIndex: nat, size: real)

  /** `TextParams::new`. */
  function NewTextParams(font: Font, size: real): TextParams
  {
    TextParams(font.index, size)
  }

  /** Two runs share a memo key exactly when their fonts have the same index and their sizes are equal. */
  lemma TextParamsEqualIff(f: Font, s: real, g: Font, t: real)
    ensures NewTextParams(f, s) == NewTextParams(g, t) <==> f.index == g.index && s == t
  {
  }

  /** The memo: the key of the last resolution and its result. */
  datatype Memo = Memo(params: TextParams, attrs: ResolvedTextAttrs)

  /** The error of `push_deco`: two decoration kinds cannot be combined under PDF/UA-1. */
  datatype DecoError = CannotCombine(validator: string, at: Location)

  /**
   * Two fonts with the same index give the same memo key at equal sizes but
   * can resolve differently: a memo hit is the current font's resolution only
   * when fonts sharing an index share their script metrics.
   */
  lemma SameKeyDifferentResolution()
    ensures var f := Font(0, ScriptMetrics(0.2, 0.6), ScriptMetrics(-0.3, 0.6));
            var g := Font(0, ScriptMetrics(0.1, 0.5), ScriptMetrics(-0.4, 0.5));
            var items := [Item(Location(0), Script(ScriptStyle(Sub, Auto, Auto)))];
            NewTextParams(f, 10.0) == NewTextParams(g, 10.0) &&
            Reference(items, f, 10.0) != Reference(items, g, 10.0)
  {
    var f := Font(0, ScriptMetrics(0.2, 0.6), ScriptMetrics(-0.3, 0.6));
    var g := Font(0, ScriptMetrics(0.1, 0.5), ScriptMetrics(-0.4, 0.5));
    var items := [Item(Location(0), Script(ScriptStyle(Sub, Auto, Auto)))];
    LastOnAxisAppend([], items[0], ScriptAxis);
    assert [] + [items[0]] == items;
    assert Reference(items, f, 10.0).script == Some(ResolvedScript(2.0, 6.0));
    assert Reference(items, g, 10.0).script == Some(ResolvedScript(1.0, 5.0));
  }

  class TextAttrs {
    /** The memo of the last resolution. */
    var lastResolved: Option<Memo>
    /** The log of active attributes, oldest first. */
    var items: seq<Item>
    /** The font whose resolution the memo holds. */
    ghost var memoFont: Option<Font>

    /**
     * The memo is coherent: it holds the resolution of the current log for
     * the font that filled it, whose index is the memo key's.
     */
    ghost predicate Valid()
      reads this
    {
      (lastResolved.Some? <==> memoFont.Some?) &&
      (lastResolved.Some? ==>
        memoFont.value.index == lastResolved.value.params.fontIndex &&
        lastResolved.value.attrs == Reference(items, memoFont.value, lastResolved.value.params.size))
    }

    /** `TextAttrs::new`: an empty log and no memo. */
    constructor ()
      ensures Valid() && items == [] && lastResolved == None
    {
      lastResolved := None;
      items := [];
      memoFont := None;
    }

    /** `push`: append one entry and clear the memo. */
    method Push(loc: Location, attr: TextAttr)
      modifies this
      ensures Valid()
      ensures items == old(items) + [Item(loc, attr)]
      ensures lastResolved == None
    {
      lastResolved := None;
      memoFont := None;
      items := items + [Item(loc, attr)];
    }

    /** `push_script`. */
    method PushScript(loc: Location, kind: ScriptKind, baselineShift: Smart<Length>, lineheight: Smart<TextSize>)
      modifies this
      ensures Valid()
      ensures items == old(items) + [Item(loc, Script(ScriptStyle(kind, baselineShift, lineheight)))]
      ensures lastResolved == None
    {
      var val := ScriptStyle(kind, baselineShift, lineheight);
      Push(loc, Script(val));
    }

    /** `push_highlight`: the paint, if any, is converted with `toColor`. */
    method PushHighlight(loc: Location, paint: Option<Paint>, toColor: Paint -> Option<Color>)
      modifies this
      ensures Valid()
      ensures items == old(items) + [Item(loc, Highlight(if paint.Some? then toColor(paint.value) else None))]
      ensures lastResolved == None
    {
      var color := if paint.Some? then toColor(paint.value) else None;
      Push(loc, Highlight(color));
    }

    /**
     * `push_deco`: with PDF/UA-1 enforced, fail when the log holds a
     * decoration of another kind, leaving the stack as it was; otherwise push
     * the decoration.
     */
    method PushDeco(pdfUa: bool, validator: string, loc: Location, kind: TextDecoKind,
                    stroke: Smart<Stroke>, toColor: Paint -> Option<Color>)
      returns (res: Outcome<DecoError>)
      requires Valid()
      modifies this
      ensures Valid()
      ensures res.Fail? <==> pdfUa && HasConflictingDeco(old(items), kind)
      ensures res.Fail? ==> res.error == CannotCombine(validator, loc) &&
                            items == old(items) && lastResolved == old(lastResolved)
      ensures res.Pass? ==> items == old(items) + [Item(loc, Deco(TextDeco(kind, StrokeFrom(stroke, toColor))))] &&
                            lastResolved == None
      ensures pdfUa && res.Pass? ==> SingleDecoKind(items)
    {
      var deco := TextDeco(kind, StrokeFrom(stroke, toColor));
      if pdfUa && HasConflictingDeco(items, deco.kind) {
        return Fail(CannotCombine(validator, loc));
      }
      if pdfUa {
        NoConflictGivesSingleKind(items, loc, deco);
      }
      Push(loc, Deco(deco));
      return Pass;
    }

    /**
     * `pop`: remove the most recent entry for `loc`, if any, and clear the
     * memo in any case. Reports whether an entry was removed.
     */
    method Pop(loc: Location) returns (removed: bool)
      modifies this
      ensures Valid()
      ensures lastResolved == None
      ensures removed <==> HasLocation(old(items), loc)
      ensures items == Without(old(items), loc)
    {
      lastResolved := None;
      memoFont := None;
      var pos := RPosition(items, AtLocation(loc));
      if pos.Some? {
        items := items[..pos.value] + items[pos.value + 1..];
        return true;
      }
      return false;
    }

    /**
     * `resolve`: answer from the memo when its key equals the run's; otherwise
     * resolve the log and store the result under the run's key. Either way the
     * answer is the resolution of the log for a font with the run's index.
     */
    method Resolve(font: Font, size: real) returns (r: ResolvedTextAttrs)
      requires Valid()
      modifies this
      ensures Valid() && items == old(items)
      ensures old(lastResolved).Some? && old(lastResolved).value.params == NewTextParams(font, size) ==>
                r == old(lastResolved).value.attrs && lastResolved == old(lastResolved)
      ensures !(old(lastResolved).Some? && old(lastResolved).value.params == NewTextParams(font, size)) ==>
                r == Reference(items, font, size) && lastResolved == Some(Memo(NewTextParams(font, size), r)) &&
                memoFont == Some(font)
      ensures memoFont.Some? && memoFont.value.index == font.index && r == Reference(items, memoFont.value, size)
    {
      var params := NewTextParams(font, size);
      if lastResolved.Some? && lastResolved.value.params == params {
        return lastResolved.value.attrs;
      }
      var attrs := ResolveAttrs(items, font, size);
      lastResolved := Some(Memo(params, attrs));
      memoFont := Some(font);
      return attrs;
    }
  }

  /** Two resolutions with equal run parameters and no push or pop between them agree. */
  method ResolveTwiceAgrees(stack: TextAttrs, font: Font, size: real) returns (first: ResolvedTextAttrs, second: ResolvedTextAttrs)
    requires stack.Valid()
    modifies stack
    ensures first == second
  {
    first := stack.Resolve(font, size);
    second := stack.Resolve(font, size);
  }

  /** After a push the memo cannot be stale: the next resolution is that of the new log for the run's font. */
  method PushInvalidatesMemo(stack: TextAttrs, loc: Location, attr: TextAttr, font: Font, size: real)
    returns (r: ResolvedTextAttrs)
    requires stack.Valid()
    modifies stack
    ensures r == Reference(old(stack.items) + [Item(loc, attr)], font, size)
  {
    stack.Push(loc, attr);
    r := stack.Resolve(font, size);
  }

  /**
   * Nested strong scopes: after pushing strong at `a` and `b` and popping `b`,
   * the run is still strong; popping `a` too leaves the strong axis undecided.
   * This holds even when `a == b`, since each pop removes only one entry.
   */
  method NestedStrongScopes(a: Location, b: Location, font: Font, size: real)
    returns (inner: ResolvedTextAttrs, outer: ResolvedTextAttrs)
    ensures inner.strong == Some(true) && outer == EMPTY
  {
    var stack := new TextAttrs();
    stack.Push(a, Strong);
    stack.Push(b, Strong);
    var _ := stack.Pop(b);
    PushThenPopRestores([Item(a, Strong)], b, Strong);
    LastOnAxisAppend([], Item(a, Strong), StrongAxis);
    assert [] + [Item(a, Strong)] == [Item(a, Strong)];
    inner := stack.Resolve(font, size);
    var _ := stack.Pop(a);
    PushThenPopRestores([], a, Strong);
    outer := stack.Resolve(font, size);
  }
}

/**
 * `resolve_attrs`: the effective style of a text run, read off the attribute
 * log from the most recent entry backwards. Each axis is decided by the most
 * recent entry on that axis ("innermost wins"); the axes are independent.
 */
module Resolution {
  import opened Wrappers
  import opened TextValues
  import opened ResolvedAttrs
  import opened Search

  /** The entries that decide the given axis. */
  function OnAxis(axis: Axis): Item -> bool
  {
    (it: Item) => AxisOf(it.attr) == axis
  }

  /** The attribute of the most recent log entry on the given axis, if any. */
  function LastOnAxis(items: seq<Item>, axis: Axis): (r: Option<TextAttr>)
    ensures r.Some? ==> AxisOf(r.value) == axis
    ensures r.Some? ==> exists i :: 0 <= i < |items| && items[i].attr == r.value &&
                                    forall j :: i < j < |items| ==> AxisOf(items[j].attr) != axis
    ensures r.None? <==> forall j :: 0 <= j < |items| ==> AxisOf(items[j].attr) != axis
  {
    match RPosition(items, OnAxis(axis))
    case Some(i) => Some(items[i].attr)
    case None => None
  }

  /**
   * A script resolved against the run's font and size: an explicit baseline
   * shift is inverted, the font's vertical offset is not; an explicit line
   * height wins over the font's script height.
   */
  function ResolveScript(script: Script, font: Font, size: real): (r: ResolvedScript)
    ensures script.baselineShift.Custom? ==> r.baselineShift == -At(script.baselineShift.value, size)
    ensures script.baselineShift.Auto? ==> r.baselineShift == ReadMetrics(script.kind, font).verticalOffset * size
    ensures script.lineheight.Custom? ==> r.lineheight == At(script.lineheight.value.length, size)
    ensures script.lineheight.Auto? ==> r.lineheight == ReadMetrics(script.kind, font).height * size
  {
    var metrics := ReadMetrics(script.kind, font);
    var shift := match script.baselineShift
      case Custom(s) => -At(s, size)
      case Auto => metrics.verticalOffset * size;
    var height := match script.lineheight
      case Custom(h) => At(h.length, size)
      case Auto => metrics.height * size;
    ResolvedScript(shift, height)
  }

  /** A decoration resolved against the run's size: only the thickness depends on it. */
  function ResolveDeco(deco: TextDeco, size: real): (r: ResolvedTextDeco)
    ensures r.kind == deco.kind && r.color == deco.stroke.color
    ensures r.thickness.Some? <==> deco.stroke.thickness.Some?
    ensures r.thickness.Some? ==> r.thickness.value == At(deco.stroke.thickness.value, size)
  {
    var thickness := match deco.stroke.thickness
      case Some(t) => Some(At(t, size))
      case None => None;
    ResolvedTextDeco(deco.kind, deco.stroke.color, thickness)
  }

  /**
   * The resolved style, axis by axis: each slot is derived from the most
   * recent entry on its axis, and is undecided when the log has none.
   */
  function Reference(items: seq<Item>, font: Font, size: real): ResolvedTextAttrs
  {
    ResolvedTextAttrs(
      if LastOnAxis(items, StrongAxis).Some? then Some(true) else None,
      if LastOnAxis(items, EmphAxis).Some? then Some(true) else None,
      match LastOnAxis(items, ScriptAxis)
        case Some(Script(s)) => Some(ResolveScript(s, font, size))
        case _ => None,
      match LastOnAxis(items, BackgroundAxis)
        case Some(Highlight(c)) => Some(c)
        case _ => None,
      match LastOnAxis(items, DecoAxis)
        case Some(Deco(d)) => Some(ResolveDeco(d, size))
        case _ => None)
  }

  /** `Option::get_or_insert`: keep a decided slot, decide an undecided one. */
  function GetOrInsert<T>(slot: Option<T>, v: T): Option<T>
  {
    if slot.Some? then slot else Some(v)
  }

  /** One iteration of the reverse scan: the entry decides its axis unless it is decided. */
  function Step(attrs: ResolvedTextAttrs, attr: TextAttr, font: Font, size: real): (r: ResolvedTextAttrs)
    ensures Decided(r, AxisOf(attr))
    ensures Decided(attrs, AxisOf(attr)) ==> r == attrs
    ensures forall axis :: axis != AxisOf(attr) ==> SameAxis(r, attrs, axis)
  {
    match attr
    case Strong => attrs.(strong := GetOrInsert(attrs.strong, true))
    case Emph => attrs.(emph := GetOrInsert(attrs.emph, true))
    case Script(s) => attrs.(script := GetOrInsert(attrs.script, ResolveScript(s, font, size)))
    case Highlight(c) => attrs.(background := GetOrInsert(attrs.background, c))
    case Deco(d) => attrs.(deco := GetOrInsert(attrs.deco, ResolveDeco(d, size)))
  }

  /** The reverse scan over the whole log, without the early exit. */
  function FullScan(items: seq<Item>, acc: ResolvedTextAttrs, font: Font, size: real): ResolvedTextAttrs
    decreases |items|
  {
    if |items| == 0 then acc
    else FullScan(items[..|items| - 1], Step(acc, items[|items| - 1].attr, font, size), font, size)
  }

  /** The most recent entry on an axis of an extended log is the new one, if it is on that axis. */
  lemma LastOnAxisAppend(items: seq<Item>, it: Item, axis: Axis)
    ensures LastOnAxis(items + [it], axis) ==
            if AxisOf(it.attr) == axis then Some(it.attr) else LastOnAxis(items, axis)
  {
    RPositionAppend(items, it, OnAxis(axis));
    var r := RPosition(items, OnAxis(axis));
    if r.Some? {
      assert (items + [it])[r.value] == items[r.value];
    }
  }

  /** Removing an entry of another axis does not change the most recent entry on an axis. */
  lemma {:induction false} LastOnAxisRemoveOther(items: seq<Item>, i: nat, axis: Axis)
    requires i < |items| && AxisOf(items[i].attr) != axis
    ensures LastOnAxis(items[..i] + items[i + 1..], axis) == LastOnAxis(items, axis)
    decreases |items|
  {
    var n := |items| - 1;
    assert items[..n] + [items[n]] == items;
    if i == n {
      assert items[..i] + items[i + 1..] == items[..n];
      LastOnAxisAppend(items[..n], items[n], axis);
    } else {
      var front := items[..n];
      LastOnAxisRemoveOther(front, i, axis);
      assert items[..i] + items[i + 1..] == (front[..i] + front[i + 1..]) + [items[n]];
      LastOnAxisAppend(front[..i] + front[i + 1..], items[n], axis);
      LastOnAxisAppend(front, items[n], axis);
    }
  }

  /**
   * The scan step is sound: taking the last entry into the record and then the
   * rest of the log gives the same as the whole log.
   */
  lemma StepExtends(attrs: ResolvedTextAttrs, items: seq<Item>, font: Font, size: real)
    requires |items| > 0
    ensures Merge(Step(attrs, items[|items| - 1].attr, font, size), Reference(items[..|items| - 1], font, size))
            == Merge(attrs, Reference(items, font, size))
  {
    var n := |items| - 1;
    assert items[..n] + [items[n]] == items;
    LastOnAxisAppend(items[..n], items[n], StrongAxis);
    LastOnAxisAppend(items[..n], items[n], EmphAxis);
    LastOnAxisAppend(items[..n], items[n], ScriptAxis);
    LastOnAxisAppend(items[..n], items[n], BackgroundAxis);
    LastOnAxisAppend(items[..n], items[n], DecoAxis);
  }

  /** The scan without early exit, started from `acc`, keeps `acc`'s slots and fills the rest from the log. */
  lemma {:induction false} FullScanMerges(items: seq<Item>, acc: ResolvedTextAttrs, font: Font, size: real)
    ensures FullScan(items, acc, font, size) == Merge(acc, Reference(items, font, size))
    decreases |items|
  {
    if |items| == 0 {
      MergeEmpty(acc);
      assert Reference(items, font, size) == EMPTY;
    } else {
      var n := |items| - 1;
      FullScanMerges(items[..n], Step(acc, items[n].attr, font, size), font, size);
      StepExtends(acc, items, font, size);
    }
  }

  /** The reverse scan with no early exit computes the axis-by-axis resolution. */
  lemma FullScanIsReference(items: seq<Item>, font: Font, size: real)
    ensures FullScan(items, EMPTY, font, size) == Reference(items, font, size)
  {
    FullScanMerges(items, EMPTY, font, size);
    MergeEmpty(Reference(items, font, size));
  }

  /** Once every slot is decided, scanning further entries changes nothing. */
  lemma EarlyExitIsSound(items: seq<Item>, acc: ResolvedTextAttrs, font: Font, size: real)
    requires AllResolved(acc)
    ensures FullScan(items, acc, font, size) == acc
  {
    FullScanMerges(items, acc, font, size);
    AllResolvedIsFixpoint(acc, Reference(items, font, size));
  }

  /**
   * The loop invariant of `ResolveAttrs`: the record decided so far, completed
   * by the entries not yet scanned, is the resolution of the whole log.
   */
  predicate ScannedFrom(attrs: ResolvedTextAttrs, items: seq<Item>, i: nat, font: Font, size: real)
    requires i <= |items|
  {
    Merge(attrs, Reference(items[..i], font, size)) == Reference(items, font, size)
  }

  /** Scanning one more entry keeps the loop invariant. */
  lemma ScanStep(attrs: ResolvedTextAttrs, items: seq<Item>, i: nat, font: Font, size: real)
    requires 0 < i <= |items| && ScannedFrom(attrs, items, i, font, size)
    ensures ScannedFrom(Step(attrs, items[i - 1].attr, font, size), items, i - 1, font, size)
  {
    StepExtends(attrs, items[..i], font, size);
    assert items[..i][..i - 1] == items[..i - 1];
  }

  /** The loop invariant at the exits: after the whole log, or once every slot is decided. */
  lemma ScanDone(attrs: ResolvedTextAttrs, items: seq<Item>, i: nat, font: Font, size: real)
    requires i <= |items| && ScannedFrom(attrs, items, i, font, size)
    requires i == 0 || AllResolved(attrs)
    ensures attrs == Reference(items, font, size)
  {
    if i == 0 {
      assert items[..0] == [];
      assert Reference(items[..0], font, size) == EMPTY;
      MergeEmpty(attrs);
    } else {
      AllResolvedIsFixpoint(attrs, Reference(items[..i], font, size));
    }
  }

  /**
   * `resolve_attrs`: scan the log from the most recent entry backwards, let
   * each entry decide its axis if still undecided, and stop as soon as all
   * axes are decided. The result is the axis-by-axis resolution.
   */
  method ResolveAttrs(items: seq<Item>, font: Font, size: real) returns (attrs: ResolvedTextAttrs)
    ensures attrs == Reference(items, font, size)
    ensures attrs.strong != Some(false) && attrs.emph != Some(false)
  {
    attrs := EMPTY;
    var i := |items|;
    assert items[..i] == items;
    MergeEmpty(Reference(items, font, size));
    while i > 0
      invariant 0 <= i <= |items|
      invariant ScannedFrom(attrs, items, i, font, size)

    {
      ScanStep(attrs, items, i, font, size);
      i := i - 1;
      attrs := Step(attrs, items[i].attr, font, size);
      if AllResolved(attrs) {
        break;
      }
    }
    ScanDone(attrs, items, i, font, size);
  }

  /** An empty log resolves to the empty record. */
  lemma EmptyLogResolvesEmpty(font: Font, size: real)
    ensures Reference([], font, size) == EMPTY
  {
  }

  /** The resolved record is empty exactly when the log is empty: every entry decides some axis. */
  lemma ResolvedEmptyIffNoEntries(items: seq<Item>, font: Font, size: real)
    ensures IsEmpty(Reference(items, font, size)) <==> |items| == 0
  {
    if |items| > 0 {
      var n := |items| - 1;
      assert items[..n] + [items[n]] == items;
      LastOnAxisAppend(items[..n], items[n], AxisOf(items[n].attr));
    }
  }

  /**
   * Innermost wins: after pushing an entry, its own axis is decided by it and
   * every other axis is as before.
   */
  lemma PushedEntryWins(items: seq<Item>, it: Item, font: Font, size: real)
    ensures Reference(items + [it], font, size) == Merge(Step(EMPTY, it.attr, font, size), Reference(items, font, size))
  {
    var all := items + [it];
    assert all[..|all| - 1] == items;
    StepExtends(EMPTY, all, font, size);
    MergeEmpty(Reference(all, font, size));
  }

  /** Pushing an entry never changes the slot of another axis. */
  lemma PushKeepsOtherAxes(items: seq<Item>, it: Item, axis: Axis, font: Font, size: real)
    requires AxisOf(it.attr) != axis
    ensures SameAxis(Reference(items + [it], font, size), Reference(items, font, size), axis)
  {
    LastOnAxisAppend(items, it, axis);
  }

  /** Removing an entry never changes the slot of another axis. */
  lemma RemoveKeepsOtherAxes(items: seq<Item>, i: nat, axis: Axis, font: Font, size: real)
    requires i < |items| && AxisOf(items[i].attr) != axis
    ensures SameAxis(Reference(items[..i] + items[i + 1..], font, size), Reference(items, font, size), axis)
  {
    LastOnAxisRemoveOther(items, i, axis);
  }

  /** The font matters only through its script metrics. */
  lemma ResolutionDependsOnlyOnMetrics(items: seq<Item>, f: Font, g: Font, size: real)
    requires f.subscript == g.subscript && f.superscript == g.superscript
    ensures Reference(items, f, size) == Reference(items, g, size)
  {
    forall s: Script
      ensures ResolveScript(s, f, size) == ResolveScript(s, g, size)
    {
      assert ReadMetrics(s.kind, f) == ReadMetrics(s.kind, g);
    }
  }
}

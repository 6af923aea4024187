# Text-attribute stack for PDF structure tags

A Dafny model of the text-attribute stack that Typst's PDF exporter uses when
it writes structure tags for text (`crates/typst-pdf/src/tags/text.rs`).

While the document is walked, formatting scopes (strong, emphasis, sub- and
superscript, highlight, underline/overline/strike) push entries onto an
ordered log, `TextAttrs.items`, and remove them again by location. Removal is
not LIFO: `pop` takes out the most recent entry whose location matches. For
every text run the log is resolved into one optional slot per style axis. The
most recent entry on an axis decides that axis, and the axes are independent.
The last resolution is memoised under the run's font index and size, and every
push or pop clears the memo. The resolved style then wraps the run's tag
identifiers in structure groups. The span group carries the inline layout
attributes of section 14.8.5.4 of ISO 32000-1 and is innermost. The strong
group goes around it and the emphasis group is outermost. With PDF/UA-1
(ISO 14289-1) enforced, pushing a decoration fails while a decoration of
another kind is active.

Modules (one per part of the source file):

- `Wrappers` (`wrappers.dfy`): `Option` and `Outcome`.
- `TextValues` (`values.dfy`): locations, colours, lengths, fonts, strokes and the
  `TextAttr` union, with `as_deco`, `to_krilla` and `TextDecoStroke::from`.
- `Search` (`search.dfy`): `rposition` over a sequence.
- `ResolvedAttrs` (`resolved.dfy`): `ResolvedTextAttrs` with `EMPTY`, `is_empty`
  and `all_resolved`.
- `Resolution` (`resolution.dfy`): `resolve_attrs` as a method with the source's
  reverse loop and early `break`. It is proved equal to `Reference`, an
  axis-by-axis definition: each slot is derived from the most recent entry on
  its axis.
- `TagTree` (`tagtree.dfy`): `resolve_nodes`, proved equal to wrapping the
  leaves in `Layers(attrs)`, the layers listed outermost first.
- `TextStack` (`stack.dfy`): the `TextAttrs` class. It has the log, the memo and
  a ghost record of the font that filled the memo. Its invariant `Valid()`
  says the memo holds the resolution of the current log.

The memo key is the font's *index* plus the size, as in the source
(`TextParams`, text.rs:257-270, whose comment says comparing font indices is
enough). A memo hit therefore returns the resolution of the log for the font
that filled the memo. That font has the same index as the current one, but it
need not be the same font. If `Font::index` is the face index within a font
file, two different fonts often share index 0, and a sub- or superscript run
that falls back to another font at the same size would be given the previous
font's script metrics. `Font::index` is not part of this model, so this is
stated as a consequence of the key, not as a defect. `SameKeyDifferentResolution`
exhibits two fonts with equal keys whose resolutions differ in the script
slot. `ResolutionDependsOnlyOnMetrics` shows that a hit is still exact
whenever fonts that share an index share their script metrics.

`pop` returns true whenever it removes an entry, of any kind. The doc comment
at text.rs:80 speaks of a removed decoration, but the code tests only for a
matching location, and the model follows the code.

## Model

| member | source | states |
|---|---|---|
| `TextValues.ToKrilla` | crates/typst-pdf/src/tags/text.rs:144-150 | underline maps to underline, overline to overline and strike to line-through, and only they do |
| `TextValues.ToKrillaInjective` | crates/typst-pdf/src/tags/text.rs:143-151 | each decoration kind maps to a distinct tagging-library decoration type |
| `TextValues.StrokeFrom` | crates/typst-pdf/src/tags/text.rs:159-168 | an automatic stroke gives no colour and no thickness; the thickness is set exactly when the stroke has an explicit thickness; the colour is the converted explicit paint |
| `TextValues.AsDeco` | crates/typst-pdf/src/tags/text.rs:116-120 | gives a decoration exactly for `Deco` attributes, and the one they carry |
| `Search.RPosition` | crates/typst-pdf/src/tags/text.rs:86 | the result is the largest index whose element matches; None exactly when nothing matches |
| `ResolvedAttrs.IsEmpty` | crates/typst-pdf/src/tags/text.rs:180-190 | `is_empty` holds exactly when all five slots are undecided |
| `ResolvedAttrs.AllResolved` | crates/typst-pdf/src/tags/text.rs:192-198 | `all_resolved` holds exactly when every one of the five axes is decided |
| `ResolvedAttrs.AllResolvedIsFixpoint` | crates/typst-pdf/src/tags/text.rs:192-198 | a fully resolved record is unchanged by whatever older entries would add |
| `Resolution.LastOnAxis` | crates/typst-pdf/src/tags/text.rs:279-315 | gives the attribute of an entry on the axis after which no entry is on that axis; None exactly when no entry is on the axis |
| `Resolution.ResolveScript` | crates/typst-pdf/src/tags/text.rs:294-304 | an explicit baseline shift is resolved against the size and negated, otherwise the font's vertical offset for the script kind is scaled by the size without negation; an explicit line height wins over the font's script height |
| `Resolution.ResolveDeco` | crates/typst-pdf/src/tags/text.rs:309-313 | keeps the decoration's kind and colour; the thickness is set exactly when the stroke has one, resolved against the size |
| `Resolution.Step` | crates/typst-pdf/src/tags/text.rs:280-315 | one scan iteration decides the entry's axis, leaves an already decided axis as it was, and never touches another axis |
| `Resolution.LastOnAxisRemoveOther` | crates/typst-pdf/src/tags/text.rs:86-87 | removing an entry of another axis leaves the most recent entry on an axis unchanged |
| `Resolution.ResolveAttrs` | crates/typst-pdf/src/tags/text.rs:273-322 | the reverse scan with early exit equals the axis-by-axis resolution, each slot from the most recent entry on its axis, and strong and emphasis are never `Some(false)` |
| `Resolution.FullScanIsReference` | crates/typst-pdf/src/tags/text.rs:278-315 | the reverse scan without the early exit also equals the axis-by-axis resolution |
| `Resolution.EarlyExitIsSound` | crates/typst-pdf/src/tags/text.rs:317-319 | once every slot is decided, scanning the remaining entries changes nothing |
| `Resolution.StepExtends` | crates/typst-pdf/src/tags/text.rs:280-315 | one `get_or_insert` step on the newest unscanned entry, completed by the older entries, equals the record completed by all of them |
| `Resolution.EmptyLogResolvesEmpty` | crates/typst-pdf/src/tags/text.rs:278 | an empty log resolves to `EMPTY` |
| `Resolution.ResolvedEmptyIffNoEntries` | crates/typst-pdf/src/tags/text.rs:278-321 | the resolution is empty exactly when the log is empty |
| `Resolution.PushedEntryWins` | crates/typst-pdf/src/tags/text.rs:279-315 | after a push the new entry decides its own axis and every other slot is the old resolution's |
| `Resolution.PushKeepsOtherAxes` | crates/typst-pdf/src/tags/text.rs:279-315 | pushing an entry never changes another axis's slot |
| `Resolution.RemoveKeepsOtherAxes` | crates/typst-pdf/src/tags/text.rs:279-315 | removing an entry never changes another axis's slot |
| `Resolution.ResolutionDependsOnlyOnMetrics` | crates/typst-pdf/src/tags/text.rs:294-299 | the font enters the resolution only through its script metrics |
| `TagTree.HasSpan` | crates/typst-pdf/src/tags/text.rs:216 | without a span group no span attribute would be set; a span group carries no attribute exactly when its only set axis is a background without colour |
| `TagTree.SpanAttrsOf` | crates/typst-pdf/src/tags/text.rs:217-223 | each of the six span attributes is set exactly when its slot is (the background colour only when the background holds a colour, decoration colour and thickness only when the decoration has them) and then holds that slot's value, the decoration type converted by `to_krilla` |
| `TagTree.IntoNodes` | crates/typst-pdf/src/tags/text.rs:207-212 | bare children become one leaf each, in order; a group becomes the single group node |
| `TagTree.Layers` | crates/typst-pdf/src/tags/text.rs:215-235 | a group is present for emphasis, strong and span exactly when that axis is set (span when script, background or decoration is set); at most one of each, in the order emphasis, strong, span |
| `TagTree.Leaves` | crates/typst-pdf/src/tags/text.rs:209 | the children become leaves, one each, in order |
| `TagTree.WrapRoundTrip` | crates/typst-pdf/src/tags/text.rs:225-235 | a non-empty layering is one group; descending through it meets exactly the layers and ends at the leaves |
| `TagTree.ResolveNodes` | crates/typst-pdf/src/tags/text.rs:200-241 | appends to `accum` and keeps its contents; appends the children as leaves when no layer is set, and exactly one group nested as `Layers` says otherwise |
| `TagTree.NestingOrder` | crates/typst-pdf/src/tags/text.rs:215-235 | with strong, emphasis and a span axis set the tree is Em containing Strong containing Span containing the leaves |
| `TagTree.EmptyLogPassesThrough` | crates/typst-pdf/src/tags/text.rs:237-240 | building the tree for an empty log gives the children as leaves, with no group |
| `TextStack.Without` | crates/typst-pdf/src/tags/text.rs:81-91 | popping removes only the most recent entry for the location and keeps the others in order; without a match the log is unchanged |
| `TextStack.PushThenPopRestores` | crates/typst-pdf/src/tags/text.rs:74-91 | popping a scope right after pushing it restores the log |
| `TextStack.HasConflictingDeco` | crates/typst-pdf/src/tags/text.rs:56-62 | true exactly when some log entry is a decoration of a different kind |
| `TextStack.NoConflictGivesSingleKind` | crates/typst-pdf/src/tags/text.rs:53-71 | a decoration that passes the PDF/UA check leaves a log with a single decoration kind |
| `TextStack.PopKeepsSingleKind` | crates/typst-pdf/src/tags/text.rs:81-91 | popping preserves a single decoration kind |
| `TextStack.TextParamsEqualIff` | crates/typst-pdf/src/tags/text.rs:257-270 | two runs share a memo key exactly when their fonts have the same index and their sizes are equal |
| `TextStack.SameKeyDifferentResolution` | crates/typst-pdf/src/tags/text.rs:257-270 | two fonts with the same index give equal memo keys at equal sizes while resolving a script differently |
| `TextStack.TextAttrs.constructor` | crates/typst-pdf/src/tags/text.rs:23-25 | a new stack has an empty log and no memo |
| `TextStack.TextAttrs.Push` | crates/typst-pdf/src/tags/text.rs:74-78 | appends exactly one entry, keeps the earlier ones, clears the memo |
| `TextStack.TextAttrs.PushScript` | crates/typst-pdf/src/tags/text.rs:27-36 | appends one script entry with the given kind, shift and line height |
| `TextStack.TextAttrs.PushHighlight` | crates/typst-pdf/src/tags/text.rs:38-41 | appends one highlight entry carrying the converted paint, or no colour |
| `TextStack.TextAttrs.PushDeco` | crates/typst-pdf/src/tags/text.rs:43-72 | fails exactly when PDF/UA is enforced and a decoration of another kind is in the log, and then changes nothing; otherwise appends one decoration entry; under PDF/UA a success leaves a single decoration kind |
| `TextStack.TextAttrs.Pop` | crates/typst-pdf/src/tags/text.rs:80-91 | clears the memo, removes the most recent entry for the location and returns true exactly when there was one |
| `TextStack.TextAttrs.Resolve` | crates/typst-pdf/src/tags/text.rs:93-104 | on a key hit returns the memo and changes nothing; otherwise returns the resolution of the log and stores exactly that pair under the run's key; always the resolution for a font with the run's index |
| `TextStack.ResolveTwiceAgrees` | crates/typst-pdf/src/tags/text.rs:93-104 | two consecutive resolutions with equal parameters agree |
| `TextStack.PushInvalidatesMemo` | crates/typst-pdf/src/tags/text.rs:74-104 | after a push the resolution is that of the new log for the run's font, never a stale memo |
| `TextStack.NestedStrongScopes` | crates/typst-pdf/src/tags/text.rs:74-104 | nested strong scopes: after popping the inner one the run is still strong; after popping both the style is empty |

## Left out

- Floating point: lengths, sizes and metrics are real numbers. `to_f32` rounding, the non-finite guard of `Em::at` and `f64` equality of sizes are not modelled.
- `ScriptKind::read_metrics(font.metrics())` is modelled as choosing the font's subscript or superscript metrics. The font-metrics code is not part of this model.
- `convert::paint_to_color` is a parameter `toColor` of the operations that use it, because it is an external lookup.
- `elem.location().unwrap()`: the operations take a `Location`, and the panic on a missing location is not modelled. The `push_deco` error carries the location instead of the element's source span.
- The diagnostic text of the decoration conflict is not modelled; the error carries the validator's name and the location.
- `PdfOptions` is reduced to a PDF/UA flag and the validator's name. `bail!` becomes a `Fail` outcome with that name.
- The krilla tagging types (`Tag`, `TagGroup`, `Node`, `LineHeight`, `TextDecorationType`, the `with_*` builders) are replaced by a small tree datatype and a span-attribute record. `LineHeight` is always the custom height, so it is stored as a number.
- `TagTree.ResolveNodes`: the caller's `&mut Vec<Node>` is modelled as a sequence passed in and returned extended. The in-place update of the caller's vector is not modelled.
- `TextStack.TextAttrs.Resolve`: the coherence it states is weaker than "the resolution for the run's font". It promises the resolution for the font that filled the memo, which has the same index. This is because the memo key holds the font index only (see above).
- `TextStack.TextAttrs.Pop`: the result reports any removed entry, following the code rather than the doc comment's "decoration".
- The `typographic` script setting is ignored, as in the source.
- `Clone`/`Debug` derives and `TextParams::new`'s reading of a `TextItem` are left out: `Resolve` takes the run's font and size directly.

# Alternating line colour adornment, modelled in Dafny

The extension paints a translucent band behind every odd-numbered line of a
Visual Studio editor. Its whole logic is one class,
`AlternatingLineColorTextAdornment`. That class owns an adornment layer: the
rectangles drawn behind the text, each anchored to a line extent. It keeps
the layer in step with the editor through three event handlers:

- a layout pass either empties the layer and refreshes it from every visible
  line, or refreshes only the lines that are new or were reformatted;
- a refresh appends, for each odd-numbered line, a rectangle with the line's
  top and height and the viewport's current width and left offset;
- a viewport width change gives every rectangle the new width;
- a viewport left change moves every rectangle to the new left offset.

The model has three modules:

- `Wrappers` (wrappers.dfy): `Option` and `Result`.
- `LineBands` (line_bands.dfy): the values. A `Line` holds its line number,
  extent, top and height. A `Decoration` holds extent, height, width, left,
  top and fill. `Bands` says what one refresh pass appends. `OddLines` is the
  reference filter it is proved equal to. `WithWidth` and `WithLeft` say what
  the two viewport broadcasts do to a layer.
- `TextAdornment` (text_adornment.dfy): the class. Its `layer` field is a
  `seq<Decoration>` that the handlers change in place, with loops as in the
  source. Its constant `brush` is fixed at construction. A module-level
  `Create` holds the null check of the constructor. `LayoutScenarios` is a
  client: ten lines laid out, a line edit down to five lines, a reformat of
  lines 2 and 3, then a resize and a horizontal scroll.

The editor is reduced to data. `TextView` carries the viewport width, the
viewport left offset and the visible lines. `LayoutChangedEventArgs` carries
the old and new snapshot identities, whether the old snapshot's changes
include line changes, and the new or reformatted lines.

The model's layer changes only through the adornment's own calls; it does
not drop rectangles on its own when their lines are reformatted, as the
editor's layer may (see "## Left out"). So in the model, a refresh over a
line that already has a band adds a second band for it
(`RepeatedLineGetsTwoBands`, and line 3 in `LayoutScenarios`).

## Model

| member | source | states |
|---|---|---|
| `TextAdornment.Create` | alternating-line-color-visual-studio-extension/AlternatingLineColorTextAdornment.cs:55-67 | Fails with an argument-null error naming `textView` exactly when the view is absent, and then creates no adornment. Otherwise the result is a fresh adornment with an empty layer and the shared brush. |
| `TextAdornment.AlternatingLineColorTextAdornment.constructor` | alternating-line-color-visual-studio-extension/AlternatingLineColorTextAdornment.cs:60-62 | The adornment starts with no rectangles and with the frozen brush ARGB(160, 194, 252, 233). |
| `TextAdornment.AlternatingLineColorTextAdornment.OnViewportLeftChanged` | alternating-line-color-visual-studio-extension/AlternatingLineColorTextAdornment.cs:69-77 | The new layer is `WithLeft` of the old one at the view's left offset. Every rectangle moves there and nothing else changes. |
| `TextAdornment.AlternatingLineColorTextAdornment.OnViewportWidthChanged` | alternating-line-color-visual-studio-extension/AlternatingLineColorTextAdornment.cs:79-87 | The new layer is `WithWidth` of the old one at the view's width. Every rectangle takes that width and nothing else changes. |
| `TextAdornment.AlternatingLineColorTextAdornment.OnLayoutChanged` | alternating-line-color-visual-studio-extension/AlternatingLineColorTextAdornment.cs:89-101 | If the snapshot changed and the change includes line changes (`IsFullRebuild`, the condition of line 92), the layer is exactly the bands of all visible lines and nothing from before survives. Otherwise the old layer is kept unchanged as a prefix, followed by the bands of the new or reformatted lines. |
| `TextAdornment.AlternatingLineColorTextAdornment.Refresh` | alternating-line-color-visual-studio-extension/AlternatingLineColorTextAdornment.cs:103-122 | The new layer is the old layer followed by `Bands` of the input lines under the current viewport and the shared brush. Nothing already in the layer is removed or changed. |
| `LineBands.BandFor` | alternating-line-color-visual-studio-extension/AlternatingLineColorTextAdornment.cs:110-119 | A line's rectangle takes the line's extent, height and top, the viewport's width and left offset, and the shared fill. |
| `LineBands.Bands` | alternating-line-color-visual-studio-extension/AlternatingLineColorTextAdornment.cs:105-121 | A pass adds at most one rectangle per input line. The rectangles it adds span the viewport they were built under (`SpansViewport`: the viewport's width and left offset) and all carry the shared fill. |
| `LineBands.OddLines` | alternating-line-color-visual-studio-extension/AlternatingLineColorTextAdornment.cs:107-108 | The reference filter. A line is kept if and only if it is an input line whose number is odd; "odd" is `IsOddLine`, the `lineNumber % 2 == 1` test of line 108. |
| `LineBands.OddLinesCount` | alternating-line-color-visual-studio-extension/AlternatingLineColorTextAdornment.cs:105-108 | The filter keeps exactly as many lines as there are positions of the input holding an odd-numbered line (`OddPositions`). |
| `LineBands.OddLinesMultiplicity` | alternating-line-color-visual-studio-extension/AlternatingLineColorTextAdornment.cs:105-108 | The filter keeps each odd-numbered line exactly as many times as it occurs in the input, and no even-numbered line at all, so no odd line is dropped or kept twice even when the input repeats lines. |
| `LineBands.BandsAreOddLines` | alternating-line-color-visual-studio-extension/AlternatingLineColorTextAdornment.cs:103-121 | A pass adds exactly one rectangle per odd-numbered input line, in input order. The k-th rectangle is that of the k-th odd line, so the layer grows by the number of odd lines. |
| `LineBands.NoBandsForEvenLines` | alternating-line-color-visual-studio-extension/AlternatingLineColorTextAdornment.cs:108-120 | A pass over only even-numbered lines adds nothing. |
| `LineBands.BandsMatchOddLines` | alternating-line-color-visual-studio-extension/AlternatingLineColorTextAdornment.cs:92-96 | After a full rebuild, every visible odd-numbered line has its rectangle in the layer. Every rectangle in the layer belongs to a visible odd-numbered line. |
| `LineBands.BandsAppend` | alternating-line-color-visual-studio-extension/AlternatingLineColorTextAdornment.cs:105-121 | A pass over `a + b` appends the bands of `a`, then those of `b`. The lines are processed one at a time, in order. |
| `LineBands.RepeatedLineGetsTwoBands` | alternating-line-color-visual-studio-extension/AlternatingLineColorTextAdornment.cs:105-120 | A refresh does not deduplicate. An odd line given twice gets two identical rectangles on the same extent. |
| `LineBands.WithWidth` | alternating-line-color-visual-studio-extension/AlternatingLineColorTextAdornment.cs:83-86 | Same number of rectangles. Each has the new width, and its extent, height, left, top and fill are unchanged. |
| `LineBands.WithLeft` | alternating-line-color-visual-studio-extension/AlternatingLineColorTextAdornment.cs:73-76 | Same number of rectangles. Each has the new left offset, and its extent, height, width, top and fill are unchanged. |
| `LineBands.BroadcastsSpanViewport` | alternating-line-color-visual-studio-extension/AlternatingLineColorTextAdornment.cs:69-87 | After both broadcasts, in either order, every rectangle of any layer spans the viewport. |
| `LineBands.BroadcastsCommute` | alternating-line-color-visual-studio-extension/AlternatingLineColorTextAdornment.cs:69-87 | The width and left broadcasts touch different fields, so their order does not matter. |
| `LineBands.BroadcastsIdempotent` | alternating-line-color-visual-studio-extension/AlternatingLineColorTextAdornment.cs:69-87 | Repeating a broadcast with the same value changes nothing. |
| `LineBands.BroadcastKeepsSpanningLayer` | alternating-line-color-visual-studio-extension/AlternatingLineColorTextAdornment.cs:69-87 | A broadcast leaves a layer that already spans the viewport as it is. |
| `TextAdornment.LowerFiveLineBands` | alternating-line-color-visual-studio-extension/AlternatingLineColorTextAdornment.cs:103-121 | A pass over lines 0 to 4 yields the bands of lines 1 and 3 only. |
| `TextAdornment.UpperFiveLineBands` | alternating-line-color-visual-studio-extension/AlternatingLineColorTextAdornment.cs:103-121 | A pass over lines 5 to 9 yields the bands of lines 5, 7 and 9. |
| `TextAdornment.ReformattedLineBands` | alternating-line-color-visual-studio-extension/AlternatingLineColorTextAdornment.cs:103-121 | A pass over lines 2 and 3 yields the band of line 3 only. |

## Left out

- Rendering: WPF `Rectangle` objects, `Canvas.SetLeft`/`SetTop` and the
  `SolidColorBrush` with `Freeze()` are not modelled. The brush is a constant
  ARGB value, and a rectangle is a record of its geometry and fill.
- Geometry is `int`. The source uses `double`, but only copies these values
  and never computes with them.
- Rectangles are values, not shared objects. The handlers replace them in the
  layer sequence one by one, so aliasing of a rectangle through other
  references is not modelled.
- Event subscription (lines 64-66) and the casts of `sender` are not
  modelled. Each handler is a method that receives the view's data. For the
  same reason `Create` does not record the three subscriptions it makes.
- `GetAdornmentLayer` and the layer name are not modelled. The layer is a
  field that starts empty.
- The editor's own adornment-layer behaviour is not modelled. In the host,
  the layer may drop rectangles whose lines were reformatted or scrolled out
  of view. Here the layer changes only through the adornment's own calls.
- The line number comes from `GetLineNumberFromPosition` on the current
  snapshot. It is a field of each `Line`, and it is a `nat`: a buffer line
  index is never negative, so C#'s truncating `%` agrees with Dafny's.
- Snapshot identity and `Version.Changes.IncludesLineChanges` are host
  queries. They come in as two snapshot identities and a boolean.
- Disposal and unsubscription are not modelled: the source has no teardown
  logic.
- A second copy of the class takes the brush opacity from the view's
  background at construction. That copy is not part of this model.

# WaterfallLayout in Dafny

A model of the waterfall ("masonry") collection-view layout of
SeacenLiu/WaterfallLayout. The layout keeps one extent per *flow*: a
column height in the vertical style, a row width in the horizontal style.
A prepare pass works like this:

- every flow is reset to the top inset;
- the fixed cross-axis length of a flow (`waterfallWidth`) is computed from the container frame, the insets, the gaps and the flow count;
- every item of section 0 is placed, in order, in the currently shortest flow. Ties go to the lowest index. The item's scroll-axis length comes from the aspect ratio of its size hint. That flow's extent becomes the frame's largest scroll-axis coordinate (CGRect's `maxY` or `maxX`): the trailing edge when the length is non-negative, the item's start when it is negative.

The content size is the largest extent plus the trailing inset on the scroll axis.

Files:

- `waterfall_delegate.dfy` (module `WaterfallDelegate`) holds the delegate protocol. `Option` stands for a method the host did not implement, so the protocol extension's default is used. It also holds the resolution of the settings the layout reads once.
- `waterfall_spec.dfy` (module `WaterfallSpec`) holds the placement rules as functions of values:
  - `ShortestFlowIndex`, the shortest-flow scan;
  - `VerticalFrame` and `HorizontalFrame`, the frame formulas;
  - `NextFrame` and `Advance`, one placement step;
  - `Run`, a whole pass;
  - `MaxOf` and `ContentSize`, the content size.
- `waterfall_layout.dfy` (module `Waterfall`) holds the layout object as a class. Its fields are `flowHeights` (an array), `attributesArray` and `waterfallWidth`. Each method is proved to leave the state the specification functions describe.
- `waterfall_properties.dfy` (module `WaterfallProperties`) holds what the rules guarantee:
  - the first-minimum choice and its tie rule;
  - the flows tile the container between the insets;
  - extents never decrease;
  - frames never overlap, stay inside the cross-axis insets, and end at least the trailing inset before the content end on the scroll axis;
  - with a positive flow width and positive size hints, the first row fills flows 0, 1, 2, … in order;
  - the layout of the first three demo pictures.

The model reproduces the code as written, including where it is not symmetric:

- both styles start every flow at the *top* inset and add the gap only when an extent differs from the top inset;
- the horizontal style uses the row margin both between rows and before an item;
- `waterfallWidth` is not clamped, so it can be negative in a container too small for its insets and gaps. With positive size hints such frames have a negative length, and the flow they go to keeps its extent (`NarrowViewKeepsExtents`).

Extents never decrease as long as the row margin is non-negative, whatever the sizes. The properties about overlap and fit need a sensible layout and say so in their preconditions:

- non-negative margins (`WellSpaced`);
- positive size hints;
- a container with room for its insets and gaps.

`Prepare`'s final state depends only on the delegate and the collection view. A second pass with the same inputs therefore gives the same frames and extents.

## Model

| member | source | states |
|---|---|---|
| WaterfallDelegate.Style | WaterfallLayout/WaterfallLayoutDeleagte.swift:37-39 | the style is the host's answer, or vertical when the host does not implement the method |
| WaterfallDelegate.ColumnMargin | WaterfallLayout/WaterfallLayoutDeleagte.swift:41-43 | the column margin is the host's answer, or 10 by default |
| WaterfallDelegate.RowMargin | WaterfallLayout/WaterfallLayoutDeleagte.swift:45-47 | the row margin is the host's answer, or 10 by default |
| WaterfallDelegate.Insets | WaterfallLayout/WaterfallLayoutDeleagte.swift:49-51 | the insets are the host's answer, or 10 on all four sides by default |
| WaterfallDelegate.HeightForHeader | WaterfallLayout/WaterfallLayoutDeleagte.swift:53-55 | the header height is the host's answer for the index path, or 0 by default |
| WaterfallDelegate.HeightForFooter | WaterfallLayout/WaterfallLayoutDeleagte.swift:57-59 | the footer height is the host's answer for the index path, or 0 by default |
| WaterfallDelegate.Resolve | WaterfallLayout/WaterfallLayout.swift:38-46 | each setting the layout keeps is the delegate's answer for it, with the protocol defaults applied, and the flow count is passed through |
| WaterfallDelegate.DefaultsAreWellSpaced | WaterfallLayout/WaterfallLayoutDeleagte.swift:36-51 | a host that implements only the required methods gets a vertical layout with margins 10, insets 10 and no negative gap |
| WaterfallSpec.CrossLength | WaterfallLayout/WaterfallLayout.swift:112-122 | n flows of the computed length plus the n-1 gaps fill the container exactly between the two cross-axis insets |
| WaterfallSpec.ShortestFlowIndex | WaterfallLayout/WaterfallLayout.swift:143-150 | the chosen flow holds the smallest extent and every earlier flow is strictly longer |
| WaterfallSpec.ScrollOffset | WaterfallLayout/WaterfallLayout.swift:154-157 | an item starts at its flow's extent, plus the row margin unless the extent still equals the top inset |
| WaterfallSpec.VerticalFrame | WaterfallLayout/WaterfallLayout.swift:135-165 | a column item is one flow wide, its height keeps the hint's aspect ratio, and it sits at the shortest column's x slot and below that column's extent |
| WaterfallSpec.HorizontalFrame | WaterfallLayout/WaterfallLayout.swift:168-198 | a row item is one flow tall, its width keeps the hint's aspect ratio, and it sits at the shortest row's y slot (row margin as the gap) and after that row's extent compared with the top inset |
| WaterfallSpec.Rect.MaxX | WaterfallLayout/WaterfallLayout.swift:195 | a frame's largest x is the larger of its two vertical edges, x and x + width, like CGRect's `maxX` |
| WaterfallSpec.Rect.MaxY | WaterfallLayout/WaterfallLayout.swift:162 | a frame's largest y is the larger of its two horizontal edges, y and y + height, like CGRect's `maxY` |
| WaterfallSpec.Advance | WaterfallLayout/WaterfallLayout.swift:159-162 | one placement keeps one extent per flow; which extent moves, and to where, is stated by `AdvanceMovesOnlyShortest` |
| WaterfallSpec.NextFrame | WaterfallLayout/WaterfallLayout.swift:125-132 | in either style the item occupies exactly the cross-axis slot of the shortest flow and starts at that flow's scroll offset |
| WaterfallSpec.Run | WaterfallLayout/WaterfallLayout.swift:62-67 | a pass over n items keeps one extent per flow and yields exactly one frame and one flow per item |
| WaterfallSpec.RunSnoc | WaterfallLayout/WaterfallLayout.swift:62-67 | placing one more item appends that item's frame and flow and advances only the extents |
| WaterfallSpec.Reset | WaterfallLayout/WaterfallLayout.swift:57 | the reset extents are one per flow, each equal to the top inset |
| WaterfallSpec.MaxOf | WaterfallLayout/WaterfallLayout.swift:86-93 | the scan's result is one of the extents and no extent exceeds it |
| WaterfallSpec.ContentSize | WaterfallLayout/WaterfallLayout.swift:83-106 | zero with no flows; otherwise the largest extent plus the bottom (vertical) or right (horizontal) inset on the scroll axis and zero on the cross axis |
| WaterfallSpec.SectionHints | WaterfallLayout/WaterfallLayout.swift:62-63 | the hints are the delegate's item sizes for items 0..n-1 of section 0, in order |
| Waterfall.WaterfallLayout.constructor | WaterfallLayout/WaterfallLayout.swift:24-49 | a new layout has no flows, no frames, a zero width, and the settings resolved from its delegate |
| Waterfall.WaterfallLayout.Prepare | WaterfallLayout/WaterfallLayout.swift:51-68 | without a collection view nothing changes; otherwise the extents and frames are those of a whole pass from the reset extents with the computed flow length |
| Waterfall.WaterfallLayout.ResetCache | WaterfallLayout/WaterfallLayout.swift:56-58 | a fresh array with every flow at the top inset, and no cached frames |
| Waterfall.WaterfallLayout.PrepareValueForCompute | WaterfallLayout/WaterfallLayout.swift:112-122 | the flow length becomes the cross length for the current frame and style |
| Waterfall.WaterfallLayout.ItemFrame | WaterfallLayout/WaterfallLayout.swift:125-132 | the returned frame is the next frame of the rules, and the extents become the advanced extents: only the shortest flow moves, to the frame's largest scroll-axis coordinate |
| Waterfall.WaterfallLayout.FindShortestFlow | WaterfallLayout/WaterfallLayout.swift:143-150 | the loop finds the first index of the minimum extent together with that extent |
| Waterfall.WaterfallLayout.VerticalItemFrame | WaterfallLayout/WaterfallLayout.swift:135-165 | the returned frame is the column frame of the rules; the shortest column's height becomes the frame's maxY (the larger of y and y + height) and no other column changes |
| Waterfall.WaterfallLayout.HorizontalItemFrame | WaterfallLayout/WaterfallLayout.swift:168-198 | the returned frame is the row frame of the rules; the shortest row's width becomes the frame's maxX (the larger of x and x + width) and no other row changes |
| Waterfall.WaterfallLayout.CollectionViewContentSize | WaterfallLayout/WaterfallLayout.swift:83-106 | the scan's result is the content size of the current extents |
| WaterfallProperties.ShortestFlowIsFirstMinimum | WaterfallLayout/WaterfallLayout.swift:143-150 | an index is the scan's answer exactly when it is the first index holding the minimum |
| WaterfallProperties.TieGoesToLowestFlow | WaterfallLayout/WaterfallLayout.swift:146 | with equal shortest flows the strict comparison keeps the lowest index |
| WaterfallProperties.CrossLengthNonNegative | WaterfallLayout/WaterfallLayout.swift:118-120 | a container with room for its insets and gaps gives a non-negative flow length |
| WaterfallProperties.FlowsApart | WaterfallLayout/WaterfallLayout.swift:153 | with a non-negative flow width and a non-negative gap, an earlier flow ends before a later flow starts |
| WaterfallProperties.FlowsFitContainer | WaterfallLayout/WaterfallLayout.swift:118-120 | every flow lies between the cross-axis insets, and the last flow ends exactly at the trailing inset |
| WaterfallProperties.FrameLength | WaterfallLayout/WaterfallLayout.swift:137-173 | with a positive hint and flows of non-negative width, the frame's signed height (vertical) or width (horizontal) is non-negative; it is positive when the flows have positive width, and the frame then ends strictly after it starts |
| WaterfallProperties.AdvanceMonotone | WaterfallLayout/WaterfallLayout.swift:154-162 | with a non-negative row margin, one placement never lowers an extent, for any flow width and any usable hint: the item starts at or after its flow's extent, and the new extent is not below the item's start |
| WaterfallProperties.AdvanceMovesOnlyShortest | WaterfallLayout/WaterfallLayout.swift:159-162 | one placement changes only the shortest flow's extent, to the frame's largest scroll-axis coordinate, which is never below the item's start |
| WaterfallProperties.ExtentsNeverDecrease | WaterfallLayout/WaterfallLayout.swift:62-67 | with a non-negative row margin, every flow's extent only grows along a pass, for any flow width and any usable hints |
| WaterfallProperties.RunFrameAt | WaterfallLayout/WaterfallLayout.swift:62-67 | frame i of a pass is the frame item i gets from the extents the earlier items left, in the flow chosen from them |
| WaterfallProperties.SeparatedFramesDisjoint | WaterfallLayout/WaterfallLayout.swift:153-159 | frames in different flows, or one after the other in the same flow, do not overlap |
| WaterfallProperties.AdvanceKeepsStacked | WaterfallLayout/WaterfallLayout.swift:135-165 | placing an item keeps every frame in its flow slot, under its flow's extent, and pairwise disjoint |
| WaterfallProperties.RunStacked | WaterfallLayout/WaterfallLayout.swift:62-67 | every pass with non-negative margins and positive hints keeps that invariant |
| WaterfallProperties.PreparedFramesFit | WaterfallLayout/WaterfallLayout.swift:51-68 | a prepare pass in a large enough container yields pairwise disjoint frames inside the cross-axis insets and no further than the largest extent |
| WaterfallProperties.ContentCoversFrames | WaterfallLayout/WaterfallLayout.swift:83-106 | on the scroll axis, the content size reaches at least the trailing inset past every frame of a pass |
| WaterfallProperties.FirstEmptyFlowIsShortest | WaterfallLayout/WaterfallLayout.swift:143-150 | when the flows before m have grown past the top inset and the rest have not, flow m is chosen |
| WaterfallProperties.FirstRowFillsFlowsInOrder | WaterfallLayout/WaterfallLayout.swift:143-157 | with a positive flow width and positive size hints, from the reset extents the first items go to flows 0, 1, 2, … in order, each starting at the top inset with no gap |
| WaterfallProperties.DemoFirstPicture | WaterfallLayout/FModel.swift:17 | the first demo picture (20×10) in two 145-point columns goes to column 0 at (10,10), 72.5 tall |
| WaterfallProperties.DemoSecondPicture | WaterfallLayout/FModel.swift:18 | the second demo picture (20×20) goes to column 1 at (165,10), 145 tall |
| WaterfallProperties.DemoThirdPicture | WaterfallLayout/FModel.swift:19 | the third demo picture (20×30) goes under the first at y 92.5, after the row gap |
| WaterfallProperties.DemoAfterOnePicture | WaterfallLayout/FModel.swift:17 | a pass over the first demo picture gives the extents [82.5, 10] |
| WaterfallProperties.DemoAfterTwoPictures | WaterfallLayout/FModel.swift:17-18 | a pass over the first two demo pictures gives the extents [82.5, 155] |
| WaterfallProperties.NarrowViewKeepsExtents | WaterfallLayout/WaterfallLayout.swift:154-162 | in a 10-point-wide view the flow width is -10; two 20×10 pictures both get the frame (10, 10, -10, -5) in column 0, and both columns stay at the top inset |
| WaterfallProperties.DemoGallery | WaterfallLayout/FModel.swift:17-19 | in a 320-point-wide view with the default settings the three pictures get the frames above, the extents [310, 155], and content height 320 |

## Left out

- UIKit plumbing is not modelled: `UICollectionViewLayoutAttributes`, `layoutAttributesForItem` and `layoutAttributesForElements(in:)` (WaterfallLayout.swift:71-80). A frame stands for its attributes object, and the rect argument of `layoutAttributesForElements` is ignored by the source anyway.
- The weak delegate and the `fatalError` when it is missing (WaterfallLayout.swift:24-31) are left out. The model's layout always has a delegate, which is a value given to the constructor.
- Lazy reading of the settings is modelled as reading them once, in the constructor. The two give the same values, because the source reads each setting once and then keeps it.
- The collection view is an input: its frame size and the item count of section 0. `prepareValueForCompute`'s own nil guard is unreachable from `prepare`, so it is not modelled separately.
- Headers, footers and sections other than 0 are not laid out by the source. The header and footer height defaults are modelled as delegate functions only.
- ViewController.swift and UIColor+Ex.swift are not part of this model. They are an example host and a colour helper. Only the first three sizes of FModel.swift are used, as data for the demo lemmas.
- CGFloat is modelled as exact real numbers. Rounding and division by zero are not modelled. `Prepare` requires every size hint to be non-zero on the axis its style divides by (width for vertical, height for horizontal), where the source would produce infinities or NaN.
- Waterfall.WaterfallLayout.Prepare: requires a flow count of at least 1. With 0 flows the source divides by zero in `prepareValueForCompute` and, with items present, indexes `flowHeights[0]` out of range.
- The host's item-size callback is modelled as a pure function. A callback with side effects, or one that answers differently between calls, is not modelled.

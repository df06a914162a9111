// The layout object: it keeps one extent per flow in an array, recomputes
// everything on each prepare pass, and places the items of section 0 one at
// a time in the currently shortest flow.

module Waterfall {
  import opened WaterfallDelegate
  import opened WaterfallSpec

  /** What the layout reads from its collection view: the frame size and the item count of section 0. */
  datatype CollectionView = CollectionView(frame: Size, numberOfItems: nat)

  class WaterfallLayout {
    const delegate: Delegate
    /** The settings, read once from the delegate. */
    const config: Config
    /** One extent per flow: column heights (vertical) or row widths (horizontal). */
    var flowHeights: array<real>
    /** The cached frames, one per item of section 0 in item order. */
    var attributesArray: seq<Rect>
    /** The fixed cross length of every flow for the current pass. */
    var waterfallWidth: real

    constructor (delegate: Delegate)
      ensures this.delegate == delegate && config == Resolve(delegate)
      ensures fresh(flowHeights) && flowHeights.Length == 0
      ensures attributesArray == [] && waterfallWidth == 0.0
    {
      this.delegate := delegate;
      config := Resolve(delegate);
      flowHeights := new real[0];
      attributesArray := [];
      waterfallWidth := 0.0;
    }

    /**
     * Recomputes the whole layout. Without a collection view nothing changes;
     * otherwise the extents are reset, the flow width is fixed, and every item
     * of section 0 is placed, so the state is a function of the inputs alone.
     */
    method Prepare(collectionView: Option<CollectionView>)
      requires config.flowCount >= 1
      requires collectionView.Some? ==>
                 ValidHints(config.style, SectionHints(delegate, collectionView.value.numberOfItems))
      modifies this
      ensures collectionView.None? ==>
                flowHeights == old(flowHeights) && attributesArray == old(attributesArray)
                && waterfallWidth == old(waterfallWidth)
      ensures collectionView.Some? ==>
                var cv := collectionView.value;
                var pass := Run(config, CrossLength(config, cv.frame),
                                Reset(config.edgeInsets.top, config.flowCount),
                                SectionHints(delegate, cv.numberOfItems));
                fresh(flowHeights) && waterfallWidth == CrossLength(config, cv.frame)
                && flowHeights[..] == pass.heights && attributesArray == pass.frames
    {
      if collectionView.None? {
        return;
      }
      var cv := collectionView.value;
      ResetCache();
      PrepareValueForCompute(cv);
      ghost var hints := SectionHints(delegate, cv.numberOfItems);
      ghost var start := Reset(config.edgeInsets.top, config.flowCount);
      ghost var ww := waterfallWidth;
      ghost var pass := Run(config, ww, start, []);
      assert hints[..0] == [];
      var i := 0;
      while i < cv.numberOfItems
        invariant 0 <= i <= cv.numberOfItems
        invariant fresh(flowHeights) && flowHeights.Length == config.flowCount
        invariant waterfallWidth == ww
        invariant ValidHints(config.style, hints[..i]) && pass == Run(config, ww, start, hints[..i])
        invariant flowHeights[..] == pass.heights && attributesArray == pass.frames
      {
        assert hints[..i + 1] == hints[..i] + [hints[i]];
        RunSnoc(config, ww, start, hints[..i], hints[i]);
        var rect := ItemFrame(IndexPath(0, i));
        attributesArray := attributesArray + [rect];
        pass := Run(config, ww, start, hints[..i + 1]);
        i := i + 1;
      }
      assert hints[..cv.numberOfItems] == hints;
    }

    /** Clears the caches: every flow back at the top inset, no frames. */
    method ResetCache()
      requires config.flowCount >= 1
      modifies this`flowHeights, this`attributesArray
      ensures fresh(flowHeights)
      ensures flowHeights[..] == Reset(config.edgeInsets.top, config.flowCount)
      ensures attributesArray == []
    {
      flowHeights := new real[config.flowCount](_ => config.edgeInsets.top);
      attributesArray := [];
    }

    /** Fixes the cross length of every flow for this pass. */
    method PrepareValueForCompute(cv: CollectionView)
      requires config.flowCount >= 1
      modifies this`waterfallWidth
      ensures waterfallWidth == CrossLength(config, cv.frame)
    {
      var n := config.flowCount as real;
      var e := config.edgeInsets;
      match config.style
      case Vertical =>
        waterfallWidth := (cv.frame.width - e.left - e.right - (n - 1.0) * config.columnMargin) / n;
      case Horizontal =>
        waterfallWidth := (cv.frame.height - e.top - e.bottom - (n - 1.0) * config.rowMargin) / n;
    }

    /** The frame of one item, placed in the shortest flow; that flow's extent advances. */
    method ItemFrame(indexPath: IndexPath) returns (rect: Rect)
      requires flowHeights.Length >= 1
      requires ValidHint(config.style, delegate.itemSize(indexPath))
      modifies flowHeights
      ensures rect == NextFrame(config, waterfallWidth, old(flowHeights[..]), delegate.itemSize(indexPath))
      ensures flowHeights[..] == Advance(config, waterfallWidth, old(flowHeights[..]), delegate.itemSize(indexPath))
    {
      match config.style
      case Vertical =>
        rect := VerticalItemFrame(indexPath);
      case Horizontal =>
        rect := HorizontalItemFrame(indexPath);
    }

    /**
     * The scan for the shortest flow: the candidate changes only on a strictly
     * smaller extent, so the first of several equal minima is kept.
     */
    method FindShortestFlow() returns (dest: nat, minHeight: real)
      requires flowHeights.Length >= 1
      ensures dest == ShortestFlowIndex(flowHeights[..]) && dest < flowHeights.Length
      ensures minHeight == flowHeights[dest]
      ensures forall j :: 0 <= j < flowHeights.Length ==> minHeight <= flowHeights[j]
      ensures forall j :: 0 <= j < dest ==> minHeight < flowHeights[j]
    {
      dest := 0;
      minHeight := flowHeights[0];
      var i := 0;
      while i < flowHeights.Length
        invariant 0 <= i <= flowHeights.Length
        invariant dest < flowHeights.Length && minHeight == flowHeights[dest]
        invariant dest == ShortestFlowIndex(flowHeights[..if i == 0 then 1 else i])
      {
        if flowHeights[i] < minHeight {
          minHeight := flowHeights[i];
          dest := i;
        }
        assert i >= 1 ==> flowHeights[..i + 1][..i] == flowHeights[..i];
        i := i + 1;
      }
      assert flowHeights[..flowHeights.Length] == flowHeights[..];
    }

    /** A column item: one flow wide, as tall as its aspect ratio demands, below the shortest column. */
    method VerticalItemFrame(indexPath: IndexPath) returns (rect: Rect)
      requires flowHeights.Length >= 1
      requires delegate.itemSize(indexPath).width != 0.0
      modifies flowHeights
      ensures rect == VerticalFrame(config, waterfallWidth, old(flowHeights[..]), delegate.itemSize(indexPath))
      ensures flowHeights[ShortestFlowIndex(old(flowHeights[..]))] == rect.MaxY()
      ensures forall j :: 0 <= j < flowHeights.Length && j != ShortestFlowIndex(old(flowHeights[..])) ==>
                flowHeights[j] == old(flowHeights[j])
    {
      ghost var before := flowHeights[..];
      var width := waterfallWidth;
      var size := delegate.itemSize(indexPath);
      var aspectRatio := size.height / size.width;
      var height := width * aspectRatio;

      var destColumn, minColumnHeight := FindShortestFlow();

      var x := FlowSlot(config.edgeInsets.left, destColumn, width, config.columnMargin);
      var y := minColumnHeight;
      if y != config.edgeInsets.top {
        y := y + config.rowMargin;
      }

      assert y == ScrollOffset(before[destColumn], config.edgeInsets.top, config.rowMargin);
      rect := Rect(x, y, width, height);
      assert rect == VerticalFrame(config, waterfallWidth, before, size);
      flowHeights[destColumn] := rect.MaxY();
      assert flowHeights[..] == before[destColumn := rect.MaxY()];
    }

    /** A row item: one flow tall, as wide as its aspect ratio demands, right of the shortest row. */
    method HorizontalItemFrame(indexPath: IndexPath) returns (rect: Rect)
      requires flowHeights.Length >= 1
      requires delegate.itemSize(indexPath).height != 0.0
      modifies flowHeights
      ensures rect == HorizontalFrame(config, waterfallWidth, old(flowHeights[..]), delegate.itemSize(indexPath))
      ensures flowHeights[ShortestFlowIndex(old(flowHeights[..]))] == rect.MaxX()
      ensures forall j :: 0 <= j < flowHeights.Length && j != ShortestFlowIndex(old(flowHeights[..])) ==>
                flowHeights[j] == old(flowHeights[j])
    {
      ghost var before := flowHeights[..];
      var height := waterfallWidth;
      var size := delegate.itemSize(indexPath);
      var aspectRatio := size.width / size.height;
      var width := height * aspectRatio;

      var destRow, minRowWidth := FindShortestFlow();

      var x := minRowWidth;
      if x != config.edgeInsets.top {
        x := x + config.rowMargin;
      }
      var y := FlowSlot(config.edgeInsets.top, destRow, height, config.rowMargin);

      assert x == ScrollOffset(before[destRow], config.edgeInsets.top, config.rowMargin);
      rect := Rect(x, y, width, height);
      assert rect == HorizontalFrame(config, waterfallWidth, before, size);
      flowHeights[destRow] := rect.MaxX();
      assert flowHeights[..] == before[destRow := rect.MaxX()];
    }

    /** The content size, from a scan for the largest extent. */
    method CollectionViewContentSize() returns (size: Size)
      ensures size == ContentSize(config, flowHeights[..])
    {
      if flowHeights.Length == 0 {
        return Size(0.0, 0.0);
      }
      var maxHeight := flowHeights[0];
      var i := 0;
      while i < flowHeights.Length
        invariant 0 <= i <= flowHeights.Length
        invariant maxHeight == MaxOf(flowHeights[..if i == 0 then 1 else i])
      {
        if maxHeight < flowHeights[i] {
          maxHeight := flowHeights[i];
        }
        assert i >= 1 ==> flowHeights[..i + 1][..i] == flowHeights[..i];
        i := i + 1;
      }
      assert flowHeights[..flowHeights.Length] == flowHeights[..];
      match config.style
      case Vertical =>
        size := Size(0.0, maxHeight + config.edgeInsets.bottom);
      case Horizontal =>
        size := Size(maxHeight + config.edgeInsets.right, 0.0);
    }
  }
}

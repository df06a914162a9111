// What the placement rules guarantee: the shortest-flow choice is the first
// minimum, the flows tile the container, extents never shrink, frames never
// overlap and end at least the trailing inset before the content end on the
// scroll axis, and, with a positive flow width and positive size hints, the
// first row fills the flows in order.

module WaterfallProperties {
  import opened WaterfallDelegate
  import opened WaterfallSpec

  /** The scan's answer is exactly the first index holding the minimum. */
  lemma ShortestFlowIsFirstMinimum(s: seq<real>, k: nat)
    requires |s| >= 1
    ensures IsFirstMinimum(s, k) <==> k == ShortestFlowIndex(s)
  {
  }

  /** Flows 0 and 2 tie at the minimum: flow 0 is chosen. */
  lemma TieGoesToLowestFlow()
    ensures ShortestFlowIndex([15.0, 40.0, 15.0]) == 0
  {
    ShortestFlowIsFirstMinimum([15.0, 40.0, 15.0], 0);
  }

  /** When the container has room for the insets and gaps, the flows have a non-negative cross length. */
  lemma CrossLengthNonNegative(c: Config, frame: Size)
    requires c.flowCount >= 1
    requires ContainerCross(c, frame)
             >= CrossOrigin(c) + CrossTrailingInset(c) + (c.flowCount as real - 1.0) * CrossGap(c)
    ensures CrossLength(c, frame) >= 0.0
  {
    var w := CrossLength(c, frame);
    var n := c.flowCount as real;
    assert w * n >= 0.0;
  }

  lemma NonNegativeProduct(a: real, b: real)
    requires a >= 0.0 && b >= 0.0
    ensures a * b >= 0.0
  {
  }

  /** With non-negative width and gap, an earlier flow ends before a later one starts. */
  lemma FlowsApart(c: Config, ww: real, t1: nat, t2: nat)
    requires ww >= 0.0 && CrossGap(c) >= 0.0 && t1 < t2
    ensures FlowOrigin(c, ww, t1) + ww <= FlowOrigin(c, ww, t2)
  {
    var g := ww + CrossGap(c);
    var d := t2 as real - t1 as real - 1.0;
    assert (t2 as real) * g == (t1 as real) * g + g + d * g;
    NonNegativeProduct(d, g);
  }

  /**
   * Every flow lies between the two cross-axis insets, and the last one ends
   * exactly at the trailing inset.
   */
  lemma FlowsFitContainer(c: Config, frame: Size, t: nat)
    requires c.flowCount >= 1 && t < c.flowCount && CrossGap(c) >= 0.0
    requires CrossLength(c, frame) >= 0.0
    ensures FlowOrigin(c, CrossLength(c, frame), t) >= CrossOrigin(c)
    ensures FlowOrigin(c, CrossLength(c, frame), t) + CrossLength(c, frame)
            <= ContainerCross(c, frame) - CrossTrailingInset(c)
    ensures t == c.flowCount - 1 ==>
              FlowOrigin(c, CrossLength(c, frame), t) + CrossLength(c, frame)
              == ContainerCross(c, frame) - CrossTrailingInset(c)
  {
    var ww := CrossLength(c, frame);
    var n := c.flowCount;
    assert (t as real) * (ww + CrossGap(c)) >= 0.0;
    assert FlowOrigin(c, ww, n - 1) + ww
           == CrossOrigin(c) + ww * (n as real) + (n as real - 1.0) * CrossGap(c);
    if t < n - 1 {
      FlowsApart(c, ww, t, n - 1);
    }
  }

  /** A factor of a non-negative (positive) product with a positive other factor is non-negative (positive). */
  lemma FactorSign(a: real, b: real)
    requires b > 0.0
    ensures a * b >= 0.0 ==> a >= 0.0
    ensures a * b > 0.0 ==> a > 0.0
  {
    if a < 0.0 {
      assert a * b < 0.0 * b;
    }
  }

  /**
   * A placed item from a positive hint never has a negative length along the
   * scroll axis, and has a positive one when the flows have positive width.
   */
  lemma FrameLength(c: Config, ww: real, heights: seq<real>, size: Size)
    requires ww >= 0.0 && size.width > 0.0 && size.height > 0.0 && |heights| >= 1
    ensures c.style == Vertical ==>
              NextFrame(c, ww, heights, size).height >= 0.0 &&
              (ww > 0.0 ==> NextFrame(c, ww, heights, size).height > 0.0)
    ensures c.style == Horizontal ==>
              NextFrame(c, ww, heights, size).width >= 0.0 &&
              (ww > 0.0 ==> NextFrame(c, ww, heights, size).width > 0.0)
    ensures ww > 0.0 ==> ScrollStart(c.style, NextFrame(c, ww, heights, size))
                         < ScrollEnd(c.style, NextFrame(c, ww, heights, size))
  {
    match c.style
    case Vertical =>
      var r := VerticalFrame(c, ww, heights, size);
      assert ww * size.height >= 0.0;
      assert ww > 0.0 ==> ww * size.height > 0.0;
      FactorSign(r.height, size.width);
    case Horizontal =>
      var r := HorizontalFrame(c, ww, heights, size);
      assert ww * size.width >= 0.0;
      assert ww > 0.0 ==> ww * size.width > 0.0;
      FactorSign(r.width, size.height);
  }

  /**
   * Placing one item never lowers an extent: the item starts at or after its
   * flow's extent, and the new extent is the item's largest scroll-axis
   * coordinate, which is never below its start whatever the sign of its length.
   */
  lemma AdvanceMonotone(c: Config, ww: real, heights: seq<real>, size: Size)
    requires c.rowMargin >= 0.0 && |heights| >= 1 && ValidHint(c.style, size)
    ensures heights[ShortestFlowIndex(heights)] <= ScrollStart(c.style, NextFrame(c, ww, heights, size))
    ensures ScrollStart(c.style, NextFrame(c, ww, heights, size))
            <= ScrollEnd(c.style, NextFrame(c, ww, heights, size))
    ensures forall j :: 0 <= j < |heights| ==> heights[j] <= Advance(c, ww, heights, size)[j]
  {
    var r := NextFrame(c, ww, heights, size);
    assert ScrollStart(c.style, r) <= ScrollEnd(c.style, r) by {
      match c.style
      case Vertical => assert r.y <= r.MaxY();
      case Horizontal => assert r.x <= r.MaxX();
    }
  }

  /**
   * Placing one item moves only the shortest flow, to the item's largest
   * scroll-axis coordinate, which is never below the item's start.
   */
  lemma AdvanceMovesOnlyShortest(c: Config, ww: real, heights: seq<real>, size: Size, j: nat)
    requires |heights| >= 1 && ValidHint(c.style, size) && j < |heights|
    ensures |Advance(c, ww, heights, size)| == |heights|
    ensures j == ShortestFlowIndex(heights) ==>
              Advance(c, ww, heights, size)[j] == ScrollEnd(c.style, NextFrame(c, ww, heights, size))
              && Advance(c, ww, heights, size)[j] >= ScrollStart(c.style, NextFrame(c, ww, heights, size))
    ensures j != ShortestFlowIndex(heights) ==> Advance(c, ww, heights, size)[j] == heights[j]
  {
  }

  /** Extents seen later in a pass are never below extents seen earlier. */
  lemma {:induction false} ExtentsNeverDecrease(c: Config, ww: real, start: seq<real>, sizes: seq<Size>, i: nat, k: nat)
    requires c.rowMargin >= 0.0 && |start| >= 1 && ValidHints(c.style, sizes)
    requires i <= k <= |sizes|
    ensures forall j :: 0 <= j < |start| ==>
              Run(c, ww, start, sizes[..i]).heights[j] <= Run(c, ww, start, sizes[..k]).heights[j]
    decreases k
  {
    if i < k {
      ExtentsNeverDecrease(c, ww, start, sizes, i, k - 1);
      assert sizes[..k][..k - 1] == sizes[..k - 1];
      var prev := Run(c, ww, start, sizes[..k - 1]);
      AdvanceMonotone(c, ww, prev.heights, sizes[k - 1]);
    }
  }

  /** Frame `i` of a pass is the frame item `i` gets from the extents the earlier items left. */
  lemma {:induction false} RunFrameAt(c: Config, ww: real, start: seq<real>, sizes: seq<Size>, i: nat)
    requires |start| >= 1 && ValidHints(c.style, sizes) && i < |sizes|
    ensures Run(c, ww, start, sizes).frames[i]
            == NextFrame(c, ww, Run(c, ww, start, sizes[..i]).heights, sizes[i])
    ensures Run(c, ww, start, sizes).flows[i]
            == ShortestFlowIndex(Run(c, ww, start, sizes[..i]).heights)
    decreases |sizes|
  {
    var n := |sizes|;
    var prefix := sizes[..n - 1];
    var prev := Run(c, ww, start, prefix);
    assert Run(c, ww, start, sizes).frames == prev.frames + [NextFrame(c, ww, prev.heights, sizes[n - 1])];
    assert Run(c, ww, start, sizes).flows == prev.flows + [ShortestFlowIndex(prev.heights)];
    if i < n - 1 {
      RunFrameAt(c, ww, start, prefix, i);
      assert prefix[..i] == sizes[..i] && prefix[i] == sizes[i];
    } else {
      assert prefix == sizes[..i];
    }
  }

  /**
   * The invariant of a pass: each frame sits in its flow's cross-axis slot,
   * ends no later than its flow's extent, and no two frames overlap.
   */
  ghost predicate Stacked(c: Config, ww: real, p: Pass) {
    |p.frames| == |p.flows| &&
    (forall k :: 0 <= k < |p.frames| ==>
       p.flows[k] < |p.heights| &&
       CrossStart(c.style, p.frames[k]) == FlowOrigin(c, ww, p.flows[k]) &&
       CrossEnd(c.style, p.frames[k]) == CrossStart(c.style, p.frames[k]) + ww &&
       ScrollEnd(c.style, p.frames[k]) <= p.heights[p.flows[k]]) &&
    (forall i, j :: 0 <= i < j < |p.frames| ==> Disjoint(p.frames[i], p.frames[j]))
  }

  /** A frame placed in another flow, or after the end of an earlier frame in the same flow, is disjoint from it. */
  lemma SeparatedFramesDisjoint(c: Config, ww: real, a: Rect, ta: nat, b: Rect, tb: nat)
    requires ww >= 0.0 && CrossGap(c) >= 0.0
    requires CrossStart(c.style, a) == FlowOrigin(c, ww, ta) && CrossEnd(c.style, a) == CrossStart(c.style, a) + ww
    requires CrossStart(c.style, b) == FlowOrigin(c, ww, tb) && CrossEnd(c.style, b) == CrossStart(c.style, b) + ww
    requires ta == tb ==> ScrollEnd(c.style, a) <= ScrollStart(c.style, b)
    ensures Disjoint(a, b)
  {
    if ta < tb {
      FlowsApart(c, ww, ta, tb);
    } else if tb < ta {
      FlowsApart(c, ww, tb, ta);
    }
  }

  /** Placing one more item keeps the invariant. */
  lemma AdvanceKeepsStacked(c: Config, ww: real, p: Pass, size: Size)
    requires WellSpaced(c) && ww >= 0.0 && size.width > 0.0 && size.height > 0.0
    requires |p.heights| >= 1 && Stacked(c, ww, p)
    ensures Stacked(c, ww, Pass(Advance(c, ww, p.heights, size),
                                p.frames + [NextFrame(c, ww, p.heights, size)],
                                p.flows + [ShortestFlowIndex(p.heights)]))
  {
    var dest := ShortestFlowIndex(p.heights);
    var r := NextFrame(c, ww, p.heights, size);
    var q := Pass(Advance(c, ww, p.heights, size), p.frames + [r], p.flows + [dest]);
    AdvanceMonotone(c, ww, p.heights, size);
    assert CrossGap(c) >= 0.0;
    forall k | 0 <= k < |p.frames|
      ensures Disjoint(q.frames[k], r)
      ensures ScrollEnd(c.style, q.frames[k]) <= q.heights[q.flows[k]]
    {
      SeparatedFramesDisjoint(c, ww, p.frames[k], p.flows[k], r, dest);
    }
    forall i, j | 0 <= i < j < |q.frames|
      ensures Disjoint(q.frames[i], q.frames[j])
    {
      if j < |p.frames| {
        assert q.frames[i] == p.frames[i] && q.frames[j] == p.frames[j];
      }
    }
  }

  lemma {:induction false} RunStacked(c: Config, ww: real, start: seq<real>, sizes: seq<Size>)
    requires WellSpaced(c) && ww >= 0.0 && |start| >= 1 && PositiveHints(sizes)
    ensures Stacked(c, ww, Run(c, ww, start, sizes))
    decreases |sizes|
  {
    if sizes != [] {
      var prefix := sizes[..|sizes| - 1];
      RunStacked(c, ww, start, prefix);
      AdvanceKeepsStacked(c, ww, Run(c, ww, start, prefix), sizes[|sizes| - 1]);
    }
  }

  /**
   * A prepare pass with non-negative margins, positive size hints and a
   * container wide enough for its insets and gaps yields pairwise disjoint
   * frames, each inside the cross-axis insets and before the content end.
   */
  lemma PreparedFramesFit(c: Config, frame: Size, sizes: seq<Size>)
    requires c.flowCount >= 1 && WellSpaced(c) && PositiveHints(sizes)
    requires ContainerCross(c, frame)
             >= CrossOrigin(c) + CrossTrailingInset(c) + (c.flowCount as real - 1.0) * CrossGap(c)
    ensures var ww := CrossLength(c, frame);
            var p := Run(c, ww, Reset(c.edgeInsets.top, c.flowCount), sizes);
            (forall i, j :: 0 <= i < j < |p.frames| ==> Disjoint(p.frames[i], p.frames[j])) &&
            (forall k :: 0 <= k < |p.frames| ==>
               CrossOrigin(c) <= CrossStart(c.style, p.frames[k]) &&
               CrossEnd(c.style, p.frames[k]) <= ContainerCross(c, frame) - CrossTrailingInset(c) &&
               ScrollEnd(c.style, p.frames[k]) <= MaxOf(p.heights))
  {
    var ww := CrossLength(c, frame);
    CrossLengthNonNegative(c, frame);
    var p := Run(c, ww, Reset(c.edgeInsets.top, c.flowCount), sizes);
    RunStacked(c, ww, Reset(c.edgeInsets.top, c.flowCount), sizes);
    assert CrossGap(c) >= 0.0;
    forall k | 0 <= k < |p.frames|
      ensures CrossOrigin(c) <= CrossStart(c.style, p.frames[k])
      ensures CrossEnd(c.style, p.frames[k]) <= ContainerCross(c, frame) - CrossTrailingInset(c)
    {
      FlowsFitContainer(c, frame, p.flows[k]);
    }
  }

  /**
   * The content size covers every frame of a pass along the scroll axis:
   * the content end lies at least the trailing inset past every frame.
   */
  lemma ContentCoversFrames(c: Config, ww: real, start: seq<real>, sizes: seq<Size>)
    requires WellSpaced(c) && ww >= 0.0 && |start| >= 1 && PositiveHints(sizes)
    ensures var p := Run(c, ww, start, sizes);
            var size := ContentSize(c, p.heights);
            forall k :: 0 <= k < |p.frames| ==>
              (c.style == Vertical ==> p.frames[k].MaxY() + c.edgeInsets.bottom <= size.height) &&
              (c.style == Horizontal ==> p.frames[k].MaxX() + c.edgeInsets.right <= size.width)
  {
    RunStacked(c, ww, start, sizes);
  }

  /** When the flows before `m` have grown past the top inset and the others have not, flow `m` is the shortest. */
  lemma FirstEmptyFlowIsShortest(h: seq<real>, top: real, m: nat)
    requires m < |h|
    requires forall j :: 0 <= j < m ==> h[j] > top
    requires forall j :: m <= j < |h| ==> h[j] == top
    ensures ShortestFlowIndex(h) == m
  {
    assert IsFirstMinimum(h, m);
    ShortestFlowIsFirstMinimum(h, m);
  }

  /**
   * From a reset, while some flow is still at the top inset the items go to
   * flows 0, 1, 2, ... in order, each at the top inset with no gap before it.
   * In the horizontal style this places the first item of every row at x equal
   * to the top inset, whatever the left inset is.
   */
  lemma {:induction false} FirstRowFillsFlowsInOrder(c: Config, ww: real, sizes: seq<Size>, k: nat)
    requires c.flowCount >= 1 && ww > 0.0 && PositiveHints(sizes)
    requires k <= |sizes| && k <= c.flowCount
    ensures forall i :: 0 <= i < k ==>
              Run(c, ww, Reset(c.edgeInsets.top, c.flowCount), sizes[..k]).flows[i] == i
    ensures forall i :: 0 <= i < k ==>
              ScrollStart(c.style, Run(c, ww, Reset(c.edgeInsets.top, c.flowCount), sizes[..k]).frames[i])
              == c.edgeInsets.top
    ensures forall j :: 0 <= j < k ==>
              Run(c, ww, Reset(c.edgeInsets.top, c.flowCount), sizes[..k]).heights[j] > c.edgeInsets.top
    ensures forall j :: k <= j < c.flowCount ==>
              Run(c, ww, Reset(c.edgeInsets.top, c.flowCount), sizes[..k]).heights[j] == c.edgeInsets.top
    decreases k
  {
    var top := c.edgeInsets.top;
    var start := Reset(top, c.flowCount);
    if k == 0 {
      assert sizes[..0] == [];
    } else {
      FirstRowFillsFlowsInOrder(c, ww, sizes, k - 1);
      assert sizes[..k][..k - 1] == sizes[..k - 1];
      var prev := Run(c, ww, start, sizes[..k - 1]);
      var size := sizes[k - 1];
      FirstEmptyFlowIsShortest(prev.heights, top, k - 1);
      FrameLength(c, ww, prev.heights, size);
      var r := NextFrame(c, ww, prev.heights, size);
      var p := Run(c, ww, start, sizes[..k]);
      assert p.heights == Advance(c, ww, prev.heights, size);
      assert p.frames == prev.frames + [r];
      assert p.flows == prev.flows + [k - 1];
      assert ScrollStart(c.style, r) == top;
      forall i | 0 <= i < k
        ensures p.flows[i] == i && ScrollStart(c.style, p.frames[i]) == top
      {
        if i < k - 1 {
          assert p.flows[i] == prev.flows[i] && p.frames[i] == prev.frames[i];
        }
      }
    }
  }

  /** An example configuration: the default margins and insets, vertical, in two columns. */
  function DemoConfig(): Config {
    Config(Vertical, 10.0, 10.0, EdgeInsets(10.0, 10.0, 10.0, 10.0), 2)
  }

  lemma DemoFirstPicture()
    ensures ShortestFlowIndex([10.0, 10.0]) == 0
    ensures NextFrame(DemoConfig(), 145.0, [10.0, 10.0], Size(20.0, 10.0)) == Rect(10.0, 10.0, 145.0, 72.5)
    ensures Advance(DemoConfig(), 145.0, [10.0, 10.0], Size(20.0, 10.0)) == [82.5, 10.0]
  {
    ShortestFlowIsFirstMinimum([10.0, 10.0], 0);
  }

  lemma DemoSecondPicture()
    ensures ShortestFlowIndex([82.5, 10.0]) == 1
    ensures NextFrame(DemoConfig(), 145.0, [82.5, 10.0], Size(20.0, 20.0)) == Rect(165.0, 10.0, 145.0, 145.0)
    ensures Advance(DemoConfig(), 145.0, [82.5, 10.0], Size(20.0, 20.0)) == [82.5, 155.0]
  {
    ShortestFlowIsFirstMinimum([82.5, 10.0], 1);
  }

  lemma DemoThirdPicture()
    ensures ShortestFlowIndex([82.5, 155.0]) == 0
    ensures NextFrame(DemoConfig(), 145.0, [82.5, 155.0], Size(20.0, 30.0)) == Rect(10.0, 92.5, 145.0, 217.5)
    ensures Advance(DemoConfig(), 145.0, [82.5, 155.0], Size(20.0, 30.0)) == [310.0, 155.0]
  {
    ShortestFlowIsFirstMinimum([82.5, 155.0], 0);
  }

  lemma DemoAfterOnePicture()
    ensures Run(DemoConfig(), 145.0, Reset(10.0, 2), [Size(20.0, 10.0)])
            == Pass([82.5, 10.0], [Rect(10.0, 10.0, 145.0, 72.5)], [0])
  {
    var a := Size(20.0, 10.0);
    var h0 := Reset(10.0, 2);
    assert h0 == [10.0, 10.0];
    assert [a] == [] + [a];
    assert Run(DemoConfig(), 145.0, h0, []) == Pass(h0, [], []);
    RunSnoc(DemoConfig(), 145.0, h0, [], a);
    DemoFirstPicture();
  }

  lemma DemoAfterTwoPictures()
    ensures Run(DemoConfig(), 145.0, Reset(10.0, 2), [Size(20.0, 10.0), Size(20.0, 20.0)])
            == Pass([82.5, 155.0], [Rect(10.0, 10.0, 145.0, 72.5), Rect(165.0, 10.0, 145.0, 145.0)], [0, 1])
  {
    var a, b := Size(20.0, 10.0), Size(20.0, 20.0);
    assert [a, b] == [a] + [b];
    DemoAfterOnePicture();
    RunSnoc(DemoConfig(), 145.0, Reset(10.0, 2), [a], b);
    DemoSecondPicture();
  }

  /**
   * The first three pictures of the demo data, laid out with the default
   * settings in two columns of a 320-point-wide view: each column is 145
   * points wide, the first two pictures open the two columns at the top inset,
   * and the third goes under the first, after the 10-point row gap.
   */
  lemma DemoGallery()
    ensures CrossLength(DemoConfig(), Size(320.0, 480.0)) == 145.0
    ensures Run(DemoConfig(), 145.0, Reset(10.0, 2), [Size(20.0, 10.0), Size(20.0, 20.0), Size(20.0, 30.0)])
            == Pass([310.0, 155.0],
                    [Rect(10.0, 10.0, 145.0, 72.5), Rect(165.0, 10.0, 145.0, 145.0), Rect(10.0, 92.5, 145.0, 217.5)],
                    [0, 1, 0])
    ensures ContentSize(DemoConfig(), [310.0, 155.0]) == Size(0.0, 320.0)
  {
    var a, b, d := Size(20.0, 10.0), Size(20.0, 20.0), Size(20.0, 30.0);
    assert [a, b, d] == [a, b] + [d];
    DemoAfterTwoPictures();
    RunSnoc(DemoConfig(), 145.0, Reset(10.0, 2), [a, b], d);
    DemoThirdPicture();
    assert MaxOf([310.0, 155.0]) == 310.0;
  }

  /**
   * A view too narrow for its insets and gaps gives a negative flow width.
   * A frame of negative length ends at its origin, so the chosen column stays
   * at the top inset and the next picture goes to the same column, again
   * with no gap.
   */
  lemma NarrowViewKeepsExtents()
    ensures CrossLength(DemoConfig(), Size(10.0, 480.0)) == -10.0
    ensures Run(DemoConfig(), -10.0, Reset(10.0, 2), [Size(20.0, 10.0), Size(20.0, 10.0)])
            == Pass([10.0, 10.0], [Rect(10.0, 10.0, -10.0, -5.0), Rect(10.0, 10.0, -10.0, -5.0)], [0, 0])
  {
    var a := Size(20.0, 10.0);
    var h0 := Reset(10.0, 2);
    assert h0 == [10.0, 10.0];
    ShortestFlowIsFirstMinimum(h0, 0);
    assert NextFrame(DemoConfig(), -10.0, h0, a) == Rect(10.0, 10.0, -10.0, -5.0);
    assert Advance(DemoConfig(), -10.0, h0, a) == h0;
    assert [a] == [] + [a];
    assert Run(DemoConfig(), -10.0, h0, []) == Pass(h0, [], []);
    RunSnoc(DemoConfig(), -10.0, h0, [], a);
    assert [a, a] == [a] + [a];
    RunSnoc(DemoConfig(), -10.0, h0, [a], a);
  }
}

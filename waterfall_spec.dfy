// The placement rules of the waterfall layout as functions of values: which
// flow an item goes to, the frame it gets, how the flow extents advance, and
// the content size. The class in waterfall_layout.dfy is proved against them.

module WaterfallSpec {
  import opened WaterfallDelegate

  /**
   * A frame as it is built: origin and signed size. Like a CGRect, its
   * largest coordinate on an axis is the larger of the two edges, so a
   * negative length leaves it at the origin.
   */
  datatype Rect = Rect(x: real, y: real, width: real, height: real) {
    function MaxX(): (m: real)
      ensures m >= x && m >= x + width && (m == x || m == x + width)
    {
      if width < 0.0 then x else x + width
    }

    function MaxY(): (m: real)
      ensures m >= y && m >= y + height && (m == y || m == y + height)
    {
      if height < 0.0 then y else y + height
    }
  }

  /** Two frames share no interior point. */
  predicate Disjoint(a: Rect, b: Rect) {
    a.MaxX() <= b.x || b.MaxX() <= a.x || a.MaxY() <= b.y || b.MaxY() <= a.y
  }

  // Axis-relative views of a frame. Along the scroll axis the flows grow;
  // along the cross axis the flows lie side by side.

  function ScrollStart(style: WaterfallStyle, r: Rect): real {
    match style
    case Vertical => r.y
    case Horizontal => r.x
  }

  function ScrollEnd(style: WaterfallStyle, r: Rect): real {
    match style
    case Vertical => r.MaxY()
    case Horizontal => r.MaxX()
  }

  function CrossStart(style: WaterfallStyle, r: Rect): real {
    match style
    case Vertical => r.x
    case Horizontal => r.y
  }

  /** The signed far edge on the cross axis: the origin plus the length, whatever its sign. */
  function CrossEnd(style: WaterfallStyle, r: Rect): real {
    match style
    case Vertical => r.x + r.width
    case Horizontal => r.y + r.height
  }

  /** The inset before the first flow on the cross axis. */
  function CrossOrigin(c: Config): real {
    match c.style
    case Vertical => c.edgeInsets.left
    case Horizontal => c.edgeInsets.top
  }

  /** The inset after the last flow on the cross axis. */
  function CrossTrailingInset(c: Config): real {
    match c.style
    case Vertical => c.edgeInsets.right
    case Horizontal => c.edgeInsets.bottom
  }

  /** The gap between two neighbouring flows (the horizontal style uses the row margin). */
  function CrossGap(c: Config): real {
    match c.style
    case Vertical => c.columnMargin
    case Horizontal => c.rowMargin
  }

  /** The container's length along the cross axis. */
  function ContainerCross(c: Config, frame: Size): real {
    match c.style
    case Vertical => frame.width
    case Horizontal => frame.height
  }

  /**
   * The fixed cross length of every flow. The flows and the gaps between them
   * exactly fill the container between its two cross-axis insets.
   */
  function CrossLength(c: Config, frame: Size): (w: real)
    requires c.flowCount >= 1
    ensures w * (c.flowCount as real) + (c.flowCount as real - 1.0) * CrossGap(c)
            == ContainerCross(c, frame) - CrossOrigin(c) - CrossTrailingInset(c)
  {
    var n := c.flowCount as real;
    var e := c.edgeInsets;
    match c.style
    case Vertical => (frame.width - e.left - e.right - (n - 1.0) * c.columnMargin) / n
    case Horizontal => (frame.height - e.top - e.bottom - (n - 1.0) * c.rowMargin) / n
  }

  /** Where flow `index` starts, when flows of length `length` follow `origin` with `gap` between them. */
  function FlowSlot(origin: real, index: nat, length: real, gap: real): real {
    origin + (index as real) * (length + gap)
  }

  /** Where flow `t` starts on the cross axis. */
  function FlowOrigin(c: Config, ww: real, t: nat): real {
    FlowSlot(CrossOrigin(c), t, ww, CrossGap(c))
  }

  /** `k` holds the smallest extent and no earlier index holds as small a one. */
  predicate IsFirstMinimum(s: seq<real>, k: nat) {
    k < |s| &&
    (forall j :: 0 <= j < |s| ==> s[k] <= s[j]) &&
    (forall j :: 0 <= j < k ==> s[k] < s[j])
  }

  /**
   * The flow a new item goes to: a left-to-right scan that replaces the
   * candidate only on a strictly smaller extent, so ties go to the lowest index.
   */
  function ShortestFlowIndex(s: seq<real>): (k: nat)
    requires |s| >= 1
    ensures IsFirstMinimum(s, k)
  {
    if |s| == 1 then 0
    else
      var k := ShortestFlowIndex(s[..|s| - 1]);
      if s[|s| - 1] < s[k] then |s| - 1 else k
  }

  /** The size hint can be turned into an aspect ratio for this style. */
  predicate ValidHint(style: WaterfallStyle, size: Size) {
    match style
    case Vertical => size.width != 0.0
    case Horizontal => size.height != 0.0
  }

  predicate ValidHints(style: WaterfallStyle, sizes: seq<Size>) {
    forall i :: 0 <= i < |sizes| ==> ValidHint(style, sizes[i])
  }

  predicate PositiveHints(sizes: seq<Size>) {
    forall i :: 0 <= i < |sizes| ==> sizes[i].width > 0.0 && sizes[i].height > 0.0
  }

  /**
   * The scroll-axis offset of an item on top of a flow of extent `extent`:
   * the gap is added unless the extent is still exactly the top inset.
   */
  function ScrollOffset(extent: real, top: real, gap: real): (o: real)
    ensures extent == top ==> o == extent
    ensures extent != top ==> o == extent + gap
  {
    if extent != top then extent + gap else extent
  }

  /** A column item: fixed width, height from the hint's height/width ratio. */
  function VerticalFrame(c: Config, ww: real, heights: seq<real>, size: Size): (r: Rect)
    requires |heights| >= 1 && size.width != 0.0
    ensures r.width == ww && r.height * size.width == ww * size.height
    ensures r.x == FlowSlot(c.edgeInsets.left, ShortestFlowIndex(heights), ww, c.columnMargin)
    ensures r.y == ScrollOffset(heights[ShortestFlowIndex(heights)], c.edgeInsets.top, c.rowMargin)
  {
    var width := ww;
    var aspectRatio := size.height / size.width;
    var height := width * aspectRatio;
    var dest := ShortestFlowIndex(heights);
    var x := FlowSlot(c.edgeInsets.left, dest, width, c.columnMargin);
    var y := ScrollOffset(heights[dest], c.edgeInsets.top, c.rowMargin);
    Rect(x, y, width, height)
  }

  /**
   * A row item: fixed height, width from the hint's width/height ratio. The
   * scroll offset is compared with the top inset and both gaps are the row margin.
   */
  function HorizontalFrame(c: Config, ww: real, heights: seq<real>, size: Size): (r: Rect)
    requires |heights| >= 1 && size.height != 0.0
    ensures r.height == ww && r.width * size.height == ww * size.width
    ensures r.y == FlowSlot(c.edgeInsets.top, ShortestFlowIndex(heights), ww, c.rowMargin)
    ensures r.x == ScrollOffset(heights[ShortestFlowIndex(heights)], c.edgeInsets.top, c.rowMargin)
  {
    var height := ww;
    var aspectRatio := size.width / size.height;
    var width := height * aspectRatio;
    var dest := ShortestFlowIndex(heights);
    var x := ScrollOffset(heights[dest], c.edgeInsets.top, c.rowMargin);
    var y := FlowSlot(c.edgeInsets.top, dest, height, c.rowMargin);
    Rect(x, y, width, height)
  }

  /**
   * The frame of the next item, in axis-relative terms: it occupies the
   * cross-axis slot of the shortest flow, is exactly one flow wide, and starts
   * at that flow's extent (plus the gap unless the flow is still empty).
   */
  function NextFrame(c: Config, ww: real, heights: seq<real>, size: Size): (r: Rect)
    requires |heights| >= 1 && ValidHint(c.style, size)
    ensures CrossStart(c.style, r) == FlowOrigin(c, ww, ShortestFlowIndex(heights))
    ensures CrossEnd(c.style, r) == CrossStart(c.style, r) + ww
    ensures ScrollStart(c.style, r)
            == ScrollOffset(heights[ShortestFlowIndex(heights)], c.edgeInsets.top, c.rowMargin)
  {
    match c.style
    case Vertical =>
      assert CrossOrigin(c) == c.edgeInsets.left && CrossGap(c) == c.columnMargin;
      VerticalFrame(c, ww, heights, size)
    case Horizontal =>
      assert CrossOrigin(c) == c.edgeInsets.top && CrossGap(c) == c.rowMargin;
      HorizontalFrame(c, ww, heights, size)
  }

  /**
   * The extents after placing one item: only the shortest flow moves, to the
   * item's largest scroll-axis coordinate, so never below where the item starts.
   */
  function Advance(c: Config, ww: real, heights: seq<real>, size: Size): (h: seq<real>)
    requires |heights| >= 1 && ValidHint(c.style, size)
    ensures |h| == |heights|
  {
    heights[ShortestFlowIndex(heights) := ScrollEnd(c.style, NextFrame(c, ww, heights, size))]
  }

  /** The outcome of placing a run of items: the extents, the frames, and the flow of each frame. */
  datatype Pass = Pass(heights: seq<real>, frames: seq<Rect>, flows: seq<nat>)

  /** Places the items one at a time, in order, starting from the extents `start`. */
  function Run(c: Config, ww: real, start: seq<real>, sizes: seq<Size>): (p: Pass)
    requires |start| >= 1 && ValidHints(c.style, sizes)
    ensures |p.heights| == |start| && |p.frames| == |sizes| && |p.flows| == |sizes|
    decreases |sizes|
  {
    if sizes == [] then Pass(start, [], [])
    else
      var prev := Run(c, ww, start, sizes[..|sizes| - 1]);
      var size := sizes[|sizes| - 1];
      Pass(Advance(c, ww, prev.heights, size),
           prev.frames + [NextFrame(c, ww, prev.heights, size)],
           prev.flows + [ShortestFlowIndex(prev.heights)])
  }

  /** Placing one more item extends the pass by that item's frame and flow. */
  lemma RunSnoc(c: Config, ww: real, start: seq<real>, sizes: seq<Size>, size: Size)
    requires |start| >= 1 && ValidHints(c.style, sizes) && ValidHint(c.style, size)
    ensures Run(c, ww, start, sizes + [size])
            == Pass(Advance(c, ww, Run(c, ww, start, sizes).heights, size),
                    Run(c, ww, start, sizes).frames + [NextFrame(c, ww, Run(c, ww, start, sizes).heights, size)],
                    Run(c, ww, start, sizes).flows + [ShortestFlowIndex(Run(c, ww, start, sizes).heights)])
  {
    assert (sizes + [size])[..|sizes|] == sizes;
  }

  /** The extents at the start of a pass: every flow at the top inset. */
  function Reset(top: real, n: nat): (s: seq<real>)
    ensures |s| == n && forall j :: 0 <= j < n ==> s[j] == top
  {
    seq(n, _ => top)
  }

  /** The largest extent, as a left-to-right scan that keeps the first maximum. */
  function MaxOf(s: seq<real>): (m: real)
    requires |s| >= 1
    ensures m in s
    ensures forall j :: 0 <= j < |s| ==> s[j] <= m
  {
    if |s| == 1 then s[0]
    else
      var m := MaxOf(s[..|s| - 1]);
      if m < s[|s| - 1] then s[|s| - 1] else m
  }

  /**
   * The scrollable content size: zero before any flow exists, otherwise the
   * largest extent plus the trailing inset on the scroll axis, with zero on
   * the cross axis.
   */
  function ContentSize(c: Config, heights: seq<real>): (s: Size)
    ensures |heights| == 0 ==> s == Size(0.0, 0.0)
    ensures |heights| >= 1 && c.style == Vertical ==>
              s.width == 0.0 && s.height == MaxOf(heights) + c.edgeInsets.bottom
    ensures |heights| >= 1 && c.style == Horizontal ==>
              s.height == 0.0 && s.width == MaxOf(heights) + c.edgeInsets.right
  {
    if |heights| == 0 then Size(0.0, 0.0)
    else
      match c.style
      case Vertical => Size(0.0, MaxOf(heights) + c.edgeInsets.bottom)
      case Horizontal => Size(MaxOf(heights) + c.edgeInsets.right, 0.0)
  }

  /** The size hints of the first `n` items of section 0. */
  function SectionHints(d: Delegate, n: nat): (s: seq<Size>)
    ensures |s| == n && forall i :: 0 <= i < n ==> s[i] == d.itemSize(IndexPath(0, i))
  {
    seq(n, i => d.itemSize(IndexPath(0, i)))
  }
}

// The configuration protocol of the waterfall layout: the style enum, the
// values a host supplies, and the defaults the protocol extension provides
// for the optional settings.

module WaterfallDelegate {

  datatype Option<T> = None | Some(value: T)

  /** The two scroll directions: columns that grow downwards, or rows that grow rightwards. */
  datatype WaterfallStyle = Vertical | Horizontal

  datatype Size = Size(width: real, height: real)

  datatype EdgeInsets = EdgeInsets(top: real, left: real, bottom: real, right: real)

  datatype IndexPath = IndexPath(section: int, item: int)

  /**
   * What a host answers through the protocol. The item size and the flow
   * count are required methods; every other setting is optional and `None`
   * stands for "not implemented by the host", in which case the protocol
   * extension's default applies.
   */
  datatype Delegate = Delegate(
    itemSize: IndexPath -> Size,
    flowCount: int,
    style: Option<WaterfallStyle>,
    columnMargin: Option<real>,
    rowMargin: Option<real>,
    edgeInsets: Option<EdgeInsets>,
    heightForHeader: Option<IndexPath -> real>,
    heightForFooter: Option<IndexPath -> real>)

  /** The settings a layout reads once from its delegate and then keeps. */
  datatype Config = Config(
    style: WaterfallStyle,
    columnMargin: real,
    rowMargin: real,
    edgeInsets: EdgeInsets,
    flowCount: int)

  function Style(d: Delegate): (s: WaterfallStyle)
    ensures d.style.None? ==> s == Vertical
    ensures d.style.Some? ==> s == d.style.value
  {
    match d.style
    case None => Vertical
    case Some(s) => s
  }

  function ColumnMargin(d: Delegate): (m: real)
    ensures d.columnMargin.None? ==> m == 10.0
    ensures d.columnMargin.Some? ==> m == d.columnMargin.value
  {
    match d.columnMargin
    case None => 10.0
    case Some(m) => m
  }

  function RowMargin(d: Delegate): (m: real)
    ensures d.rowMargin.None? ==> m == 10.0
    ensures d.rowMargin.Some? ==> m == d.rowMargin.value
  {
    match d.rowMargin
    case None => 10.0
    case Some(m) => m
  }

  function Insets(d: Delegate): (e: EdgeInsets)
    ensures d.edgeInsets.None? ==> e == EdgeInsets(10.0, 10.0, 10.0, 10.0)
    ensures d.edgeInsets.Some? ==> e == d.edgeInsets.value
  {
    match d.edgeInsets
    case None => EdgeInsets(10.0, 10.0, 10.0, 10.0)
    case Some(e) => e
  }

  function HeightForHeader(d: Delegate, indexPath: IndexPath): (h: real)
    ensures d.heightForHeader.None? ==> h == 0.0
    ensures d.heightForHeader.Some? ==> h == d.heightForHeader.value(indexPath)
  {
    match d.heightForHeader
    case None => 0.0
    case Some(f) => f(indexPath)
  }

  function HeightForFooter(d: Delegate, indexPath: IndexPath): (h: real)
    ensures d.heightForFooter.None? ==> h == 0.0
    ensures d.heightForFooter.Some? ==> h == d.heightForFooter.value(indexPath)
  {
    match d.heightForFooter
    case None => 0.0
    case Some(f) => f(indexPath)
  }

  /** The values the layout's lazy properties take on first read. */
  function Resolve(d: Delegate): (c: Config)
    ensures c.flowCount == d.flowCount
    ensures c.style == Style(d) && c.edgeInsets == Insets(d)
    ensures c.columnMargin == ColumnMargin(d) && c.rowMargin == RowMargin(d)
  {
    Config(Style(d), ColumnMargin(d), RowMargin(d), Insets(d), d.flowCount)
  }

  /** The margins are gaps, so a well-spaced layout never has negative ones. */
  predicate WellSpaced(c: Config) {
    c.columnMargin >= 0.0 && c.rowMargin >= 0.0
  }

  /**
   * A host that implements only the two required methods gets a vertical
   * layout whose margins and insets are all 10, so it is well spaced.
   */
  lemma DefaultsAreWellSpaced(d: Delegate)
    requires d.style.None? && d.columnMargin.None? && d.rowMargin.None? && d.edgeInsets.None?
    ensures Resolve(d).style == Vertical
    ensures WellSpaced(Resolve(d))
    ensures Resolve(d).columnMargin == Resolve(d).rowMargin == 10.0
    ensures Resolve(d).edgeInsets == EdgeInsets(10.0, 10.0, 10.0, 10.0)
  {
  }
}

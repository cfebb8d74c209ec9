/**
 * The part of the browser the zoom engine touches: the page's root element
 * (its scroll metrics, its native scroll offsets and the few style
 * properties the engine writes) and the document it belongs to.
 * CSS strings are replaced by records; layout metrics are fixed per element.
 */
module Dom {
  import opened Wrappers
  import opened ZoomMath

  /** The two render paths of updateTransform. */
  datatype Quality = LowQuality | HighQuality

  /**
   * The element's transform: `scaleX(s) scaleY(s)` (HighQuality) or the
   * equivalent `perspective(1px) translateZ(1 - 1/s px)` (LowQuality).
   */
  datatype Transform = Transform(mode: Quality, scale: real)

  /** A transform-origin in pixels. */
  datatype Point = Point(x: real, y: real)

  /** The overflow style: unset (""), "auto", or "hidden !important". */
  datatype Overflow = OverflowUnset | OverflowAuto | OverflowHidden

  /** The styles the control lock forces and clears: overflow and the two margins (in px, None when unset). */
  datatype LockStyle = LockStyle(overflow: Overflow, marginRight: Option<int>, marginBottom: Option<int>)

  /** The styles of the page element the engine writes. */
  datatype Style = Style(transform: Option<Transform>, origin: Option<Point>, lock: LockStyle)

  const UnsetStyle: Style := Style(None, None, LockStyle(OverflowUnset, None, None))

  class Element {
    const scrollWidth: int
    const clientWidth: int
    const scrollHeight: int
    const clientHeight: int
    const offsetLeft: int
    const offsetTop: int

    var scrollLeft: int
    var scrollTop: int

    var style: Style

    /** The horizontal scroll range, scrollWidth - clientWidth (negative when the content is narrower). */
    function ExtentX(): int { scrollWidth - clientWidth }
    function ExtentY(): int { scrollHeight - clientHeight }

    constructor (scrollWidth: int, clientWidth: int, scrollHeight: int, clientHeight: int,
                 offsetLeft: int, offsetTop: int)
      ensures this.scrollWidth == scrollWidth && this.clientWidth == clientWidth
      ensures this.scrollHeight == scrollHeight && this.clientHeight == clientHeight
      ensures this.offsetLeft == offsetLeft && this.offsetTop == offsetTop
      ensures scrollLeft == 0 && scrollTop == 0
      ensures style == UnsetStyle
    {
      this.scrollWidth, this.clientWidth := scrollWidth, clientWidth;
      this.scrollHeight, this.clientHeight := scrollHeight, clientHeight;
      this.offsetLeft, this.offsetTop := offsetLeft, offsetTop;
      scrollLeft, scrollTop := 0, 0;
      style := UnsetStyle;
    }

    /** `scrollLeft = v`: the browser keeps a whole pixel count inside the scroll range. */
    method SetScrollLeft(v: real)
      modifies this`scrollLeft
      ensures scrollLeft == NativeOffset(v, ExtentX())
    {
      scrollLeft := NativeOffset(v, ExtentX());
    }

    /** `scrollTop = v` */
    method SetScrollTop(v: real)
      modifies this`scrollTop
      ensures scrollTop == NativeOffset(v, ExtentY())
    {
      scrollTop := NativeOffset(v, ExtentY());
    }
  }

  class Document {
    /** Whether doc.defaultView is set. */
    const hasDefaultView: bool
    const contentType: string
    const documentElement: Element?
    const body: Element?
    /** The idempotency marker `doc.__mtzoomAttached`. */
    var attached: bool

    constructor (hasDefaultView: bool, contentType: string, documentElement: Element?, body: Element?)
      ensures this.hasDefaultView == hasDefaultView && this.contentType == contentType
      ensures this.documentElement == documentElement && this.body == body
      ensures !attached
    {
      this.hasDefaultView, this.contentType := hasDefaultView, contentType;
      this.documentElement, this.body := documentElement, body;
      attached := false;
    }
  }

  /** getScrollBoxElement: doc.documentElement || doc.body. */
  function ScrollBoxOf(doc: Document): (box: Element?)
    ensures doc.documentElement != null ==> box == doc.documentElement
    ensures doc.documentElement == null ==> box == doc.body
  {
    if doc.documentElement != null then doc.documentElement else doc.body
  }

  /** The objects a handler on `doc` may write through its scroll box. */
  function ScrollBoxSet(doc: Document): set<Element>
  {
    var box := ScrollBoxOf(doc);
    if box == null then {} else {box}
  }

  /** doc.contentType.indexOf("text/html") === 0 (an empty content type is not HTML). */
  predicate IsHtml(contentType: string): (r: bool)
    ensures r <==> |contentType| >= 9 && contentType[..9] == "text/html"
  {
    "text/html" <= contentType
  }
}

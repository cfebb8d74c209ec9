/**
 * Concrete runs of the zoom engine on a page whose root is 2000 x 1500 px of
 * content in a 1000 x 800 px box (scroll ranges 1000 and 700), in a window of
 * the same size. Each run builds its own objects and states what it ends with.
 */
module Scenarios {
  import opened Wrappers
  import opened ZoomMath
  import opened Dom
  import opened FrameScript

  /** A fresh engine attached to a fresh HTML document whose root is also its scroll box. */
  method Setup() returns (engine: ZoomEngine, doc: Document, root: Element)
    ensures fresh(engine) && fresh(doc) && fresh(root)
    ensures engine.Valid() && engine.pageElement == root && ScrollBoxOf(doc) == root
    ensures root.ExtentX() == 1000 && root.ExtentY() == 700
    ensures root.scrollLeft == 0 && root.scrollTop == 0 && root.style == UnsetStyle
    ensures engine.pageScale == 1.0 && !engine.canFollowMouse && !engine.shouldFollowMouse
    ensures engine.TranslationState() == Translation(0.0, 0.0, None, None)
    ensures engine.horizontalOriginShift == 0.0 && engine.verticalOriginShift == 0.0
    ensures engine.mouseX == None && engine.mouseY == None
    ensures engine.shiftKeyZoom && engine.pinchZoomSpeed == 0.7 && !engine.disableScrollbarsWhenZooming
    ensures !engine.controlDisabled && engine.TimerState() == Timers(map[], None, None, engine.nextHandle)
  {
    root := new Element(2000, 1000, 1500, 800, 0, 0);
    doc := new Document(true, "text/html; charset=utf-8", root, null);
    engine := new ZoomEngine(1000, 800);
    var outcome := engine.Attach(doc);
    assert IsHtml(doc.contentType);
    assert outcome == Installed;
  }

  /**
   * Zooming in by 2 about (100, 50) from scale 1: the translation is
   * re-anchored to (-100, -50), the box scrolls to (100, 50), the page is
   * drawn at low quality, panning is armed, and the scroll event the write
   * causes is ignored.
   */
  method ZoomInAboutPoint() returns (scale: real, tx: real, ty: real, left: int, top: int, follows: bool, mode: Quality)
    ensures scale == 2.0 && follows && mode == LowQuality
    ensures tx == -100.0 && ty == -50.0 && left == 100 && top == 50
  {
    var engine, doc, root := Setup();
    engine.ApplyScale(doc, 2.0, 100.0, 50.0);
    assert engine.pageScale == 2.0;
    assert Retranslate(0.0, 100.0, 2.0, 1000) == -100.0;
    assert Retranslate(0.0, 50.0, 2.0, 700) == -50.0;
    engine.UpdateTranslationFromScroll(doc);
    scale, tx, ty := engine.pageScale, engine.translationX, engine.translationY;
    left, top := root.scrollLeft, root.scrollTop;
    follows := engine.canFollowMouse;
    mode := root.style.transform.value.mode;
  }

  /**
   * A Shift+wheel notch of 100 at scale 1 with the default speed asks for
   * 1 / 1.42; the clamp keeps the scale at 1, so nothing is rendered, yet the
   * event is consumed.
   */
  method WheelOutAtMinimum() returns (consumed: bool, scale: real, style: Style, left: int)
    ensures consumed && scale == 1.0 && style == UnsetStyle && left == 0
  {
    var engine, doc, root := Setup();
    WheelExample();
    assert ScaleAfter(1.0, 1.0 / 1.42) == 1.0;
    consumed := engine.OnWheel(doc, true, false, 100.0, 300.0, 200.0);
    scale, style, left := engine.pageScale, root.style, root.scrollLeft;
  }

  /** Without Shift the wheel only releases the lock, which is not engaged: nothing changes. */
  method WheelWithoutShift() returns (consumed: bool, scale: real, style: Style)
    ensures !consumed && scale == 1.0 && style == UnsetStyle
  {
    var engine, doc, root := Setup();
    consumed := engine.OnWheel(doc, false, false, 100.0, 300.0, 200.0);
    scale, style := engine.pageScale, root.style;
  }

  /** The page zoomed by 3 about the top-left corner. */
  method ZoomedByThree() returns (engine: ZoomEngine, doc: Document, root: Element)
    ensures fresh(engine) && fresh(doc) && fresh(root)
    ensures engine.Valid() && engine.pageElement == root && ScrollBoxOf(doc) == root
    ensures engine.pageScale == 3.0 && engine.canFollowMouse
  {
    engine, doc, root := Setup();
    engine.ApplyScale(doc, 3.0, 0.0, 0.0);
  }

  /**
   * Ctrl+0 at scale 3 draws the page at scale 1 in high quality with the
   * origin at 0, but leaves panning armed.
   */
  method ResetFromThree() returns (scale: real, transform: Option<Transform>, origin: Option<Point>, follows: bool)
    ensures scale == 1.0 && transform == Some(Transform(HighQuality, 1.0)) && origin == Some(Point(0.0, 0.0))
    ensures follows
  {
    var engine, doc, root := ZoomedByThree();
    engine.KeyDown(doc, "0", true, false);
    scale, transform, origin, follows := engine.pageScale, root.style.transform, root.style.origin, engine.canFollowMouse;
  }

  /**
   * After zooming in about (100, 50) and resetting, the box is still
   * scrolled to (100, 50), but those offsets equal the sentinels the zoom
   * left, so the translation stays (0, 0) instead of (-100, -50).
   */
  method ResetKeepsStaleTranslation() returns (tx: real, ty: real, left: int, top: int)
    ensures tx == 0.0 && ty == 0.0 && left == 100 && top == 50
  {
    var engine, doc, root := Setup();
    engine.ApplyScale(doc, 2.0, 100.0, 50.0);
    assert Retranslate(0.0, 100.0, 2.0, 1000) == -100.0;
    assert Retranslate(0.0, 50.0, 2.0, 700) == -50.0;
    assert engine.ignoredScrollLeft == Some(100) && engine.ignoredScrollTop == Some(50);
    engine.ResetScale(doc);
    NativeOffsetOfHeldOffset(100, 1000);
    NativeOffsetOfHeldOffset(50, 700);
    tx, ty, left, top := engine.translationX, engine.translationY, root.scrollLeft, root.scrollTop;
  }

  /** With no timer pending, applyScale's two renders leave exactly the second pair pending. */
  lemma FirstZoomTimers(t: Timers)
    requires t.pending == map[] && t.quality == None && t.release == None
    ensures var r := Rendered(Rendered(t, None, None), None, None);
            && r.next == t.next + 4
            && r.pending == map[t.next + 2 := QualityUpgrade, t.next + 3 := ReleaseControl]
            && r.quality == Some(t.next + 2) && r.release == Some(t.next + 3)
  {
    assert Consistent(t) by {
      forall h: nat
        ensures HandleConsistent(t, h)
      {
      }
    }
    ZoomRendersTwice(t);
  }

  /** The page zoomed by 2 about the top-left corner, with the timers of its two renders. */
  method ZoomedByTwo() returns (engine: ZoomEngine, doc: Document, root: Element, ghost start: nat)
    ensures fresh(engine) && fresh(doc) && fresh(root)
    ensures engine.Valid() && engine.pageElement == root && ScrollBoxOf(doc) == root
    ensures engine.pageScale == 2.0 && engine.canFollowMouse && !engine.shouldFollowMouse
    ensures engine.horizontalOriginShift == 0.0 && engine.verticalOriginShift == 0.0
    ensures engine.mouseX == None && engine.mouseY == None
    ensures root.style.transform == Some(Transform(LowQuality, 2.0)) && engine.controlDisabled
    ensures engine.TimerState() == Rendered(Rendered(Timers(map[], None, None, start), None, None), None, None)
  {
    engine, doc, root := Setup();
    start := engine.nextHandle;
    engine.ApplyScale(doc, 2.0, 0.0, 0.0);
    assert engine.pageScale == 2.0;
    assert root.style.transform == Some(Transform(LowQuality, engine.pageScale));
  }

  /** The page zoomed by 2, with Shift held: panning is armed, one quality upgrade and one release pending. */
  method Zoomed() returns (engine: ZoomEngine, doc: Document, root: Element)
    ensures fresh(engine) && fresh(doc) && fresh(root)
    ensures engine.Valid() && engine.pageElement == root && ScrollBoxOf(doc) == root
    ensures engine.pageScale == 2.0 && engine.canFollowMouse && engine.shouldFollowMouse
    ensures engine.horizontalOriginShift == 0.0 && engine.verticalOriginShift == 0.0
    ensures engine.mouseX == None && engine.mouseY == None
    ensures root.style.transform == Some(Transform(LowQuality, 2.0)) && engine.controlDisabled
    ensures var n := engine.nextHandle;
            && n >= 2 && engine.pending == map[n - 2 := QualityUpgrade, n - 1 := ReleaseControl]
            && engine.qualityTimeoutHandle == Some(n - 2) && engine.overflowTimeoutHandle == Some(n - 1)
  {
    ghost var start;
    engine, doc, root, start := ZoomedByTwo();
    FirstZoomTimers(Timers(map[], None, None, start));
    engine.KeyDown(doc, "Shift", false, true);
  }

  /**
   * With the page zoomed and Shift held, the first mousemove only records
   * the pointer; each later one drags the origin along, so after moving
   * from (10, 10) through (30, 25) to (50, 40) the origin is (40, 30).
   */
  method DragWhileZoomed() returns (origin: Point, drawn: Option<Point>)
    ensures origin == Point(40.0, 30.0) && drawn == Some(origin)
    ensures origin == DragFrom(Point(0.0, 0.0), Point(10.0, 10.0), [Point(30.0, 25.0), Point(50.0, 40.0)])
  {
    var engine, doc, root := Zoomed();
    engine.MouseMove(10.0, 10.0);
    engine.MouseMove(30.0, 25.0);
    engine.MouseMove(50.0, 40.0);
    origin, drawn := Point(engine.horizontalOriginShift, engine.verticalOriginShift), root.style.origin;
    DragTelescopes(Point(0.0, 0.0), Point(10.0, 10.0), [Point(30.0, 25.0), Point(50.0, 40.0)]);
  }

  /**
   * A zoom leaves one quality upgrade and one release pending; firing them
   * redraws the page at high quality and releases the lock.
   */
  method TimersAfterZoom() returns (tasks: nat, mode: Quality, locked: bool)
    ensures tasks == 2 && mode == HighQuality && !locked
  {
    var engine, doc, root := Zoomed();
    var n := engine.nextHandle;
    assert engine.pending.Keys == {n - 2, n - 1};
    tasks := |engine.pending.Keys|;
    engine.FireTimer(n - 2);
    engine.FireTimer(n - 1);
    mode, locked := root.style.transform.value.mode, engine.controlDisabled;
  }

  /** The zoomed page reset by Ctrl+0 while Shift is still held. */
  method ResetWhileArmed() returns (engine: ZoomEngine, root: Element)
    ensures fresh(engine) && fresh(root) && engine.Valid() && engine.pageElement == root
    ensures engine.pageScale == 1.0 && engine.canFollowMouse && engine.shouldFollowMouse
    ensures engine.horizontalOriginShift == 0.0 && engine.verticalOriginShift == 0.0
    ensures engine.mouseX == None && engine.mouseY == None
  {
    var doc;
    engine, doc, root := Zoomed();
    engine.KeyDown(doc, "0", true, true);
  }

  /**
   * resetScale leaves panning armed, so a drag right after Ctrl+0 shifts the
   * origin of a page at scale 1.
   */
  method PanAfterReset() returns (scale: real, origin: Point)
    ensures scale == 1.0 && origin == Point(20.0, 0.0)
  {
    var engine, root := ResetWhileArmed();
    engine.MouseMove(10.0, 10.0);
    engine.MouseMove(30.0, 10.0);
    scale, origin := engine.pageScale, Point(engine.horizontalOriginShift, engine.verticalOriginShift);
  }

  /** A document is attached once: the second attempt finds the marker. */
  method AttachTwice() returns (first: AttachOutcome, second: AttachOutcome)
    ensures first == Installed && second == AlreadyAttached
  {
    var root := new Element(2000, 1000, 1500, 800, 0, 0);
    var doc := new Document(true, "text/html", root, null);
    var engine := new ZoomEngine(1000, 800);
    first := engine.Attach(doc);
    second := engine.Attach(doc);
  }

  /** Documents without a window, of another type, or with an empty content type are skipped. */
  method AttachFilters() returns (noWindow: AttachOutcome, xml: AttachOutcome, untyped: AttachOutcome, missing: AttachOutcome)
    ensures noWindow == NoDefaultView && xml == NotHtml && untyped == NotHtml && missing == NoDefaultView
  {
    var engine := new ZoomEngine(1000, 800);
    var d1 := new Document(false, "text/html", null, null);
    noWindow := engine.Attach(d1);
    var d2 := new Document(true, "application/xml", null, null);
    assert !IsHtml(d2.contentType) by { assert d2.contentType[0] != "text/html"[0]; }
    xml := engine.Attach(d2);
    var d3 := new Document(true, "", null, null);
    untyped := engine.Attach(d3);
    missing := engine.Attach(null);
  }
}

/**
 * The per-document zoom engine of chrome/mtzoom/content/frame-script.js.
 * The module-level `let`s of the frame script are the fields of ZoomEngine;
 * each handler is a method that updates them in place. The content window's
 * timer queue (setTimeout/clearTimeout) is the map `pending` from handle to task.
 */
module FrameScript {
  import opened Wrappers
  import opened ZoomMath
  import opened Dom

  /** 0 = always high quality, 1 = low quality while zooming */
  const ScaleMode: int := 1
  const AlwaysHighQuality: bool := false

  /** The two kinds of deferred work: the quality upgrade and the control release. */
  datatype TimerTask = QualityUpgrade | ReleaseControl

  /**
   * The timer queue of the content window (handle to task, and the next handle
   * setTimeout returns) with the two handles the engine holds:
   * qualityTimeoutHandle and overflowTimeoutHandle.
   */
  datatype Timers = Timers(pending: map<nat, TimerTask>, quality: Option<nat>, release: Option<nat>, next: nat)

  /** content.clearTimeout(h): a null handle, or one that already fired, cancels nothing. */
  function Cancel(pending: map<nat, TimerTask>, h: Option<nat>): map<nat, TimerTask>
  {
    if h.Some? then pending - {h.value} else pending
  }

  /** clearTimeout removes exactly the held timer, if it is still pending, and keeps every other one. */
  lemma CancelRemovesHeld(pending: map<nat, TimerTask>, h: Option<nat>)
    ensures Cancel(pending, h).Keys <= pending.Keys
    ensures h.Some? ==> h.value !in Cancel(pending, h)
    ensures h.None? ==> Cancel(pending, h) == pending
    ensures forall k :: k in pending && Some(k) != h ==> k in Cancel(pending, h) && Cancel(pending, h)[k] == pending[k]
  {
  }

  /** clearTimeout(handle) then handle = setTimeout(task), on the handle of `task`'s kind. */
  function Rearmed(t: Timers, task: TimerTask): Timers
  {
    match task
    case QualityUpgrade => Timers(Cancel(t.pending, t.quality)[t.next := task], Some(t.next), t.release, t.next + 1)
    case ReleaseControl => Timers(Cancel(t.pending, t.release)[t.next := task], t.quality, Some(t.next), t.next + 1)
  }

  /**
   * Re-arming issues the next handle for the task, holds it as that kind's
   * handle, leaves the other kind's handle alone, and cancels the old timer of
   * that kind while every other pending timer stays.
   */
  lemma RearmedHandles(t: Timers, task: TimerTask)
    ensures var r := Rearmed(t, task);
            var held := if task == QualityUpgrade then t.quality else t.release;
            && r.next == t.next + 1 && t.next in r.pending && r.pending[t.next] == task
            && (task == QualityUpgrade ==> r.quality == Some(t.next) && r.release == t.release)
            && (task == ReleaseControl ==> r.release == Some(t.next) && r.quality == t.quality)
            && (held.Some? && held.value != t.next ==> held.value !in r.pending)
            && (forall h :: h in t.pending && Some(h) != held ==> h in r.pending)
  {
  }

  /**
   * The queue as the engine keeps it, for one handle: a pending handle was
   * issued, and a pending task of either kind is the one whose handle the
   * engine holds.
   */
  predicate HandleConsistent(t: Timers, h: nat)
  {
    h in t.pending ==>
      && h < t.next
      && (t.pending[h] == QualityUpgrade ==> t.quality == Some(h))
      && (t.pending[h] == ReleaseControl ==> t.release == Some(h))
  }

  /** The queue as the engine keeps it. */
  ghost predicate Consistent(t: Timers)
  {
    forall h: nat :: HandleConsistent(t, h)
  }

  /** Hence of each kind at most one timer is pending. */
  lemma AtMostOnePerKind(t: Timers, h1: nat, h2: nat)
    requires Consistent(t)
    requires h1 in t.pending && h2 in t.pending && t.pending[h1] == t.pending[h2]
    ensures h1 == h2
  {
    assert HandleConsistent(t, h1) && HandleConsistent(t, h2);
  }

  /** Re-arming replaces the pending timer of that kind by one under a fresh handle. */
  lemma RearmedConsistent(t: Timers, task: TimerTask)
    requires Consistent(t)
    ensures Consistent(Rearmed(t, task))
  {
    var r := Rearmed(t, task);
    forall h: nat
      ensures HandleConsistent(r, h)
    {
      assert HandleConsistent(t, h);
    }
  }

  /** updateTransform takes the high-quality path when sm === 0 or alwaysHighQuality. */
  function RendersHighQuality(modeOverride: Option<int>): bool
  {
    modeOverride.GetOr(ScaleMode) == 0 || AlwaysHighQuality
  }

  /** The quality of the transform updateTransform writes. */
  function RenderMode(modeOverride: Option<int>): Quality
  {
    if RendersHighQuality(modeOverride) then HighQuality else LowQuality
  }

  /** updateTransform locks (and re-arms the release) unless told `false`; null means true. */
  function Locks(disableOverride: Option<bool>): bool
  {
    disableOverride.GetOr(true)
  }

  /**
   * With the scale mode 1 and alwaysHighQuality off, updateTransform draws at
   * low quality unless told mode 0; it locks unless told `false`.
   */
  lemma RenderChoice(modeOverride: Option<int>, disableOverride: Option<bool>)
    ensures RenderMode(None) == LowQuality
    ensures RenderMode(modeOverride) == HighQuality <==> modeOverride == Some(0)
    ensures RendersHighQuality(modeOverride) <==> RenderMode(modeOverride) == HighQuality
    ensures Locks(disableOverride) <==> disableOverride != Some(false)
  {
  }

  /**
   * The timers after one updateTransform: the quality upgrade is re-armed on
   * the low-quality path, then the release when the call locks.
   */
  function Rendered(t: Timers, modeOverride: Option<int>, disableOverride: Option<bool>): Timers
  {
    var afterQuality := if RendersHighQuality(modeOverride) then t else Rearmed(t, QualityUpgrade);
    if Locks(disableOverride) then Rearmed(afterQuality, ReleaseControl) else afterQuality
  }

  /**
   * One updateTransform issues a handle per timer it re-arms: a new quality
   * handle only on the low-quality path, a new release handle only when it locks.
   */
  lemma RenderedHandles(t: Timers, modeOverride: Option<int>, disableOverride: Option<bool>)
    ensures var r := Rendered(t, modeOverride, disableOverride);
            && r.next == t.next + (if RendersHighQuality(modeOverride) then 0 else 1) + (if Locks(disableOverride) then 1 else 0)
            && r.quality == (if RendersHighQuality(modeOverride) then t.quality else Some(t.next))
            && r.release == (if Locks(disableOverride) then Some(r.next - 1) else t.release)
  {
  }

  /** Every updateTransform keeps the queue consistent. */
  lemma RenderedConsistent(t: Timers, modeOverride: Option<int>, disableOverride: Option<bool>)
    requires Consistent(t)
    ensures Consistent(Rendered(t, modeOverride, disableOverride))
  {
    var afterQuality := if RendersHighQuality(modeOverride) then t else Rearmed(t, QualityUpgrade);
    if !RendersHighQuality(modeOverride) {
      RearmedConsistent(t, QualityUpgrade);
    }
    if Locks(disableOverride) {
      RearmedConsistent(afterQuality, ReleaseControl);
    }
  }

  /** applyScale's two default renders keep the queue consistent. */
  lemma RenderedTwiceConsistent(t: Timers)
    requires Consistent(t)
    ensures Consistent(Rendered(Rendered(t, None, None), None, None))
  {
    RenderedConsistent(t, None, None);
    RenderedConsistent(Rendered(t, None, None), None, None);
  }

  /**
   * applyScale renders twice with the defaults; afterwards exactly the second
   * pair of timers is pending, in place of whatever the engine held before.
   */
  lemma ZoomRendersTwice(t: Timers)
    requires Consistent(t)
    ensures var n := t.next;
            Rendered(Rendered(t, None, None), None, None)
            == Timers(Cancel(Cancel(t.pending, t.quality), t.release)[n + 2 := QualityUpgrade][n + 3 := ReleaseControl],
                      Some(n + 2), Some(n + 3), n + 4)
  {
    var n := t.next;
    forall k | k in t.pending
      ensures k < n
    {
      assert HandleConsistent(t, k);
    }
    var lhs := Rendered(Rendered(t, None, None), None, None).pending;
    var rhs := Cancel(Cancel(t.pending, t.quality), t.release)[n + 2 := QualityUpgrade][n + 3 := ReleaseControl];
    assert forall k :: k in lhs <==> k in rhs;
    assert forall k :: k in lhs ==> lhs[k] == rhs[k];
  }

  /** A timer fires: it leaves the queue; the engine still holds its handle. */
  function Fired(t: Timers, h: nat): Timers
  {
    t.(pending := t.pending - {h})
  }

  lemma FiredConsistent(t: Timers, h: nat)
    requires Consistent(t)
    ensures Consistent(Fired(t, h))
  {
    forall k: nat
      ensures HandleConsistent(Fired(t, h), k)
    {
      assert HandleConsistent(t, k);
    }
  }

  /** The overflow lock disableControl forces: overflow hidden, margins the size of the scrollbars. */
  function ForcedLock(innerWidth: int, innerHeight: int, p: Element): LockStyle
  {
    LockStyle(OverflowHidden, Some(innerWidth - p.clientWidth), Some(innerHeight - p.clientHeight))
  }

  /** What restoreControl leaves: overflow auto, margins cleared. */
  const ReleasedLock: LockStyle := LockStyle(OverflowAuto, None, None)

  /** The lock styles after disableControl: forced only on the first call, and only when the setting asks. */
  function EngagedLock(wasDisabled: bool, disableScrollbars: bool, before: LockStyle, forced: LockStyle): LockStyle
  {
    if !wasDisabled && disableScrollbars then forced else before
  }

  /** The lock styles after restoreControl: reset only when the engine was locked. */
  function ReleasedLockOf(wasDisabled: bool, before: LockStyle): LockStyle
  {
    if wasDisabled then ReleasedLock else before
  }

  /**
   * The forced lock hides the overflow and sets the margins to the scrollbar
   * sizes; the first lock with the setting on forces it, any other lock keeps
   * the styles; a release after a lock always leaves overflow auto and no margins.
   */
  lemma LockStyles(innerWidth: int, innerHeight: int, p: Element, wasDisabled: bool, disableScrollbars: bool, before: LockStyle)
    ensures ForcedLock(innerWidth, innerHeight, p)
         == LockStyle(OverflowHidden, Some(innerWidth - p.clientWidth), Some(innerHeight - p.clientHeight))
    ensures var forced := ForcedLock(innerWidth, innerHeight, p);
            && (!wasDisabled && disableScrollbars ==> EngagedLock(wasDisabled, disableScrollbars, before, forced) == forced)
            && (wasDisabled || !disableScrollbars ==> EngagedLock(wasDisabled, disableScrollbars, before, forced) == before)
            && ReleasedLockOf(true, EngagedLock(wasDisabled, disableScrollbars, before, forced)) == LockStyle(OverflowAuto, None, None)
    ensures ReleasedLockOf(false, before) == before
  {
  }

  /** Locking twice is locking once: the second call finds the engine locked. */
  lemma EngagedLockIdempotent(wasDisabled: bool, disableScrollbars: bool, before: LockStyle, forced: LockStyle)
    ensures EngagedLock(true, disableScrollbars, EngagedLock(wasDisabled, disableScrollbars, before, forced), forced)
         == EngagedLock(wasDisabled, disableScrollbars, before, forced)
  {
  }

  /** Without disableScrollbarsWhenZooming the lock writes no style at all. */
  lemma EngagedLockWithoutSetting(wasDisabled: bool, before: LockStyle, forced: LockStyle)
    ensures EngagedLock(wasDisabled, false, before, forced) == before
  {
  }

  /** Both translations and the two sentinels (ignoredScrollLeft / ignoredScrollTop). */
  datatype Translation = Translation(x: real, y: real, ignoredLeft: Option<int>, ignoredTop: Option<int>)

  /**
   * updateTranslationFromScroll on the native offsets (left, top): an offset
   * equal to its sentinel is ignored and the sentinel stays; any other offset
   * becomes the translation and clears the sentinel.
   */
  function Resynced(t: Translation, left: int, top: int): (r: Translation)
    ensures t.ignoredLeft == Some(left) ==> r.x == t.x && r.ignoredLeft == t.ignoredLeft
    ensures t.ignoredLeft != Some(left) ==> r.x == -(left as real) && r.ignoredLeft == None
    ensures t.ignoredTop == Some(top) ==> r.y == t.y && r.ignoredTop == t.ignoredTop
    ensures t.ignoredTop != Some(top) ==> r.y == -(top as real) && r.ignoredTop == None
  {
    var (x, ignoredLeft) := if t.ignoredLeft == Some(left) then (t.x, t.ignoredLeft) else (-(left as real), None);
    var (y, ignoredTop) := if t.ignoredTop == Some(top) then (t.y, t.ignoredTop) else (-(top as real), None);
    Translation(x, y, ignoredLeft, ignoredTop)
  }

  /**
   * applyScale's re-translation: each coordinate re-anchored by `effective`
   * about (x, y), clamped into the box's range; each sentinel holds the offset written.
   */
  function Retranslated(t: Translation, box: Element, effective: real, x: real, y: real): Translation
  {
    var tx := Retranslate(t.x, x, effective, box.ExtentX());
    var ty := Retranslate(t.y, y, effective, box.ExtentY());
    Translation(tx, ty, Some(WrittenOffset(tx, box.ExtentX())), Some(WrittenOffset(ty, box.ExtentY())))
  }

  /**
   * applyScale's re-translation keeps both translations in the scroll range,
   * and each sentinel is the offset the browser holds for its translation.
   */
  lemma RetranslatedInRange(t: Translation, box: Element, effective: real, x: real, y: real)
    requires box.ExtentX() >= 0 && box.ExtentY() >= 0
    ensures var r := Retranslated(t, box, effective, x, y);
            && -(box.ExtentX() as real) <= r.x <= 0.0 && -(box.ExtentY() as real) <= r.y <= 0.0
            && r.ignoredLeft == Some((-r.x).Floor) && r.ignoredTop == Some((-r.y).Floor)
  {
    var r := Retranslated(t, box, effective, x, y);
    RetranslateCases(t.x, x, effective, box.ExtentX());
    RetranslateCases(t.y, y, effective, box.ExtentY());
    WrittenOffsetCases(r.x, box.ExtentX());
    WrittenOffsetCases(r.y, box.ExtentY());
  }

  /** The scroll event that follows applyScale's own write leaves the translation alone. */
  lemma OwnScrollIgnored(t: Translation, box: Element, effective: real, x: real, y: real)
    ensures var r := Retranslated(t, box, effective, x, y);
            Resynced(r, WrittenOffset(r.x, box.ExtentX()), WrittenOffset(r.y, box.ExtentY())) == r
  {
  }

  /** A scroll to any other offset is adopted: the translation is minus the offset, the sentinel cleared. */
  lemma ForeignScrollAdopted(t: Translation, left: int, top: int)
    requires t.ignoredLeft != Some(left) && t.ignoredTop != Some(top)
    ensures Resynced(t, left, top) == Translation(-(left as real), -(top as real), None, None)
  {
  }

  /** A second scroll event at the same offsets changes nothing. */
  lemma ResyncedIdempotent(t: Translation, left: int, top: int)
    ensures Resynced(Resynced(t, left, top), left, top) == Resynced(t, left, top)
  {
  }

  /** The pointer position the mousemove handler last recorded, when both coordinates are set. */
  function Recorded(mouseX: Option<real>, mouseY: Option<real>): Option<Point>
  {
    if mouseX.Some? && mouseY.Some? then Some(Point(mouseX.value, mouseY.value)) else None
  }

  /** One panning step: the origin shift moves by the pointer's travel since `last`. */
  function PanStep(origin: Point, last: Point, pointer: Point): Point
  {
    Point(origin.x + (pointer.x - last.x), origin.y + (pointer.y - last.y))
  }

  /** Two panning steps are one step over the combined travel; a move to the recorded position changes nothing. */
  lemma PanStepComposes(origin: Point, a: Point, b: Point, c: Point)
    ensures PanStep(PanStep(origin, a, b), b, c) == PanStep(origin, a, c)
    ensures PanStep(origin, a, a) == origin
  {
  }

  /** The origin shift after a drag through `moves`, starting with the pointer at `last`. */
  function DragFrom(origin: Point, last: Point, moves: seq<Point>): Point
    decreases |moves|
  {
    if moves == [] then origin else DragFrom(PanStep(origin, last, moves[0]), moves[0], moves[1..])
  }

  /** A drag moves the origin shift by the pointer's net travel, whatever the path. */
  lemma {:induction false} DragTelescopes(origin: Point, last: Point, moves: seq<Point>)
    requires moves != []
    ensures var final := moves[|moves| - 1];
            DragFrom(origin, last, moves) == Point(origin.x + (final.x - last.x), origin.y + (final.y - last.y))
    decreases |moves|
  {
    if |moves| > 1 {
      DragTelescopes(PanStep(origin, last, moves[0]), moves[0], moves[1..]);
    }
  }

  /** The values a prefs message field can hold (typeof boolean, number, or anything else). */
  datatype JsValue = JsBool(b: bool) | JsNumber(n: real) | JsString(s: string) | JsNull

  /** A boolean setting is replaced only by a field of type boolean. */
  function BoolField(data: map<string, JsValue>, key: string, current: bool): (r: bool)
    ensures key in data && data[key].JsBool? ==> r == data[key].b
    ensures !(key in data && data[key].JsBool?) ==> r == current
  {
    if key in data && data[key].JsBool? then data[key].b else current
  }

  /** A number setting is replaced only by a field of type number. */
  function NumberField(data: map<string, JsValue>, key: string, current: real): (r: real)
    ensures key in data && data[key].JsNumber? ==> r == data[key].n
    ensures !(key in data && data[key].JsNumber?) ==> r == current
  {
    if key in data && data[key].JsNumber? then data[key].n else current
  }

  /** How attachToDocument ended. */
  datatype AttachOutcome = NoDefaultView | NotHtml | AlreadyAttached | NoRoot | Installed

  /** The scroll box a handler on a possibly missing document may write, as a frame. */
  function BoxesOf(doc: Document?): set<Element>
  {
    if doc == null then {} else ScrollBoxSet(doc)
  }

  /** A possibly missing document, as a frame. */
  function DocSet(doc: Document?): set<Document>
  {
    if doc == null then {} else {doc}
  }

  class ZoomEngine {
    // settings, fed by the prefs message
    var shiftKeyZoom: bool
    var pinchZoomSpeed: real
    var disableScrollbarsWhenZooming: bool

    // pan: the transform-origin, > 0 to the right / down
    var horizontalOriginShift: real
    var verticalOriginShift: real

    var pageScale: real
    var translationX: real
    var translationY: real
    var overflowTranslationX: real
    var overflowTranslationY: real

    // pan state; mouseX/mouseY start undefined
    var mouseX: Option<real>
    var mouseY: Option<real>
    var shouldFollowMouse: bool
    var canFollowMouse: bool

    var pageElement: Element?

    // the offsets the engine itself last wrote (scroll offsets are integers)
    var ignoredScrollLeft: Option<int>
    var ignoredScrollTop: Option<int>

    var controlDisabled: bool
    var qualityTimeoutHandle: Option<nat>
    var overflowTimeoutHandle: Option<nat>

    // the content window: its inner size and its timer queue
    const innerWidth: int
    const innerHeight: int
    var pending: map<nat, TimerTask>
    var nextHandle: nat

    /** The timer queue with the engine's two handles. */
    function TimerState(): Timers
      reads this`pending, this`qualityTimeoutHandle, this`overflowTimeoutHandle, this`nextHandle
    {
      Timers(pending, qualityTimeoutHandle, overflowTimeoutHandle, nextHandle)
    }

    /** The translations with their sentinels. */
    function TranslationState(): Translation
      reads this`translationX, this`translationY, this`ignoredScrollLeft, this`ignoredScrollTop
    {
      Translation(translationX, translationY, ignoredScrollLeft, ignoredScrollTop)
    }

    /**
     * The scale stays in [1, 10]; panning is off only at scale 1 with no
     * origin shift; the overflow translation is 0.
     */
    ghost predicate ScaleInvariant()
      reads this`pageScale, this`canFollowMouse, this`horizontalOriginShift, this`verticalOriginShift,
            this`overflowTranslationX, this`overflowTranslationY
    {
      && MinScale <= pageScale <= MaxScale
      && (!canFollowMouse ==> pageScale == 1.0 && horizontalOriginShift == 0.0 && verticalOriginShift == 0.0)
      && overflowTranslationX == 0.0 && overflowTranslationY == 0.0
    }

    /** What every handler keeps: the scale invariant and a consistent timer queue. */
    ghost predicate Valid()
      reads this`pageScale, this`canFollowMouse, this`horizontalOriginShift, this`verticalOriginShift,
            this`overflowTranslationX, this`overflowTranslationY,
            this`pending, this`qualityTimeoutHandle, this`overflowTimeoutHandle, this`nextHandle
    {
      ScaleInvariant() && Consistent(TimerState())
    }

    constructor (innerWidth: int, innerHeight: int)
      ensures Valid()
      ensures this.innerWidth == innerWidth && this.innerHeight == innerHeight
      ensures shiftKeyZoom && pinchZoomSpeed == 0.7 && !disableScrollbarsWhenZooming
      ensures pageScale == 1.0 && translationX == 0.0 && translationY == 0.0
      ensures horizontalOriginShift == 0.0 && verticalOriginShift == 0.0
      ensures mouseX == None && mouseY == None && !shouldFollowMouse && !canFollowMouse
      ensures pageElement == null && ignoredScrollLeft == None && ignoredScrollTop == None
      ensures !controlDisabled && qualityTimeoutHandle == None && overflowTimeoutHandle == None
      ensures pending == map[]
    {
      this.innerWidth, this.innerHeight := innerWidth, innerHeight;
      shiftKeyZoom, pinchZoomSpeed, disableScrollbarsWhenZooming := true, 0.7, false;
      horizontalOriginShift, verticalOriginShift := 0.0, 0.0;
      pageScale, translationX, translationY := 1.0, 0.0, 0.0;
      overflowTranslationX, overflowTranslationY := 0.0, 0.0;
      mouseX, mouseY, shouldFollowMouse, canFollowMouse := None, None, false, false;
      pageElement := null;
      ignoredScrollLeft, ignoredScrollTop := None, None;
      controlDisabled, qualityTimeoutHandle, overflowTimeoutHandle := false, None, None;
      pending, nextHandle := map[], 0;
    }

    /** The page element, as a frame. */
    function PageSet(): set<Element>
      reads this
    {
      if pageElement == null then {} else {pageElement}
    }

    /** The lock styles disableControl would force on `p` now. */
    function Forced(p: Element): LockStyle
    {
      ForcedLock(innerWidth, innerHeight, p)
    }

    /** The effect of restoreControl on the page `p`. */
    twostate predicate ControlRestored(p: Element?)
      reads this, p
    {
      && (p == null ==> controlDisabled == old(controlDisabled))
      && (p != null ==>
            && !controlDisabled
            && p.style == old(p.style).(lock := ReleasedLockOf(old(controlDisabled), old(p.style.lock))))
    }

    /** disableControl: idempotent; a no-op without a page element. */
    method DisableControl()
      modifies this`controlDisabled, PageSet()`style
      ensures pageElement == null ==> controlDisabled == old(controlDisabled)
      ensures pageElement != null ==>
                && controlDisabled
                && pageElement.style == old(pageElement.style).(lock :=
                     EngagedLock(old(controlDisabled), disableScrollbarsWhenZooming, old(pageElement.style.lock), Forced(pageElement)))
    {
      if controlDisabled { return; }
      if pageElement == null { return; }
      if disableScrollbarsWhenZooming {
        var verticalScrollBarWidth := innerWidth - pageElement.clientWidth;
        var horizontalScrollBarWidth := innerHeight - pageElement.clientHeight;
        pageElement.style := pageElement.style.(lock :=
          LockStyle(OverflowHidden, Some(verticalScrollBarWidth), Some(horizontalScrollBarWidth)));
      }
      controlDisabled := true;
    }

    /**
     * restoreControl: idempotent; a no-op without a page element. It is also
     * the scroll box's own mousemove and mousedown listener.
     */
    method RestoreControl()
      modifies this`controlDisabled, PageSet()`style
      ensures ControlRestored(pageElement)
    {
      if !controlDisabled { return; }
      if pageElement == null { return; }
      pageElement.style := pageElement.style.(lock := ReleasedLock);
      controlDisabled := false;
    }

    /** content.clearTimeout(handle) then handle = content.setTimeout(task). */
    method Rearm(task: TimerTask)
      modifies this`pending, this`nextHandle, this`qualityTimeoutHandle, this`overflowTimeoutHandle
      ensures TimerState() == Rearmed(old(TimerState()), task)
    {
      if task == QualityUpgrade {
        pending := Cancel(pending, qualityTimeoutHandle);
        pending := pending[nextHandle := task];
        qualityTimeoutHandle := Some(nextHandle);
      } else {
        pending := Cancel(pending, overflowTimeoutHandle);
        pending := pending[nextHandle := task];
        overflowTimeoutHandle := Some(nextHandle);
      }
      nextHandle := nextHandle + 1;
    }

    /**
     * updateTransform: write the transform (high or low quality) and the
     * transform-origin; on the low-quality path re-arm the quality upgrade;
     * when asked to (the default), engage the lock and re-arm the release.
     */
    method UpdateTransform(modeOverride: Option<int>, disableOverride: Option<bool>)
      modifies this`pending, this`nextHandle, this`qualityTimeoutHandle, this`overflowTimeoutHandle,
               this`controlDisabled, PageSet()`style
      ensures pageElement == old(pageElement) && PointerUnchanged()
      ensures pageElement == null ==> unchanged(this)
      ensures pageElement != null ==>
                && TimerState() == Rendered(old(TimerState()), modeOverride, disableOverride)
                && controlDisabled == (Locks(disableOverride) || old(controlDisabled))
                && pageElement.style
                   == Style(Some(Transform(RenderMode(modeOverride), pageScale)),
                            Some(Point(horizontalOriginShift, verticalOriginShift)),
                            if Locks(disableOverride)
                            then EngagedLock(old(controlDisabled), disableScrollbarsWhenZooming,
                                             old(pageElement.style.lock), Forced(pageElement))
                            else old(pageElement.style.lock))
    {
      if pageElement == null { return; }
      if RendersHighQuality(modeOverride) {
        pageElement.style := pageElement.style.(transform := Some(Transform(HighQuality, pageScale)));
      } else {
        pageElement.style := pageElement.style.(transform := Some(Transform(LowQuality, pageScale)));
        Rearm(QualityUpgrade);
      }
      pageElement.style := pageElement.style.(origin := Some(Point(horizontalOriginShift, verticalOriginShift)));
      if Locks(disableOverride) {
        DisableControl();
        Rearm(ReleaseControl);
      }
    }

    /** setTranslationX: clamp, store, push the native offset and remember it. */
    method SetTranslationX(box: Element, v: real)
      modifies this`translationX, this`ignoredScrollLeft, this`overflowTranslationX, box`scrollLeft
      ensures translationX == ClampTranslation(v, box.ExtentX())
      ensures box.scrollLeft == WrittenOffset(translationX, box.ExtentX())
      ensures ignoredScrollLeft == Some(box.scrollLeft)
      ensures overflowTranslationX == 0.0
    {
      var t := Min(v, 0.0);
      t := Max(t, -(box.ExtentX() as real));
      translationX := t;
      box.SetScrollLeft(Max(-t, 0.0));
      ignoredScrollLeft := Some(box.scrollLeft);
      overflowTranslationX := OverflowOf(t, box.ExtentX());
    }

    /** setTranslationY: the vertical counterpart of SetTranslationX. */
    method SetTranslationY(box: Element, v: real)
      modifies this`translationY, this`ignoredScrollTop, this`overflowTranslationY, box`scrollTop
      ensures translationY == ClampTranslation(v, box.ExtentY())
      ensures box.scrollTop == WrittenOffset(translationY, box.ExtentY())
      ensures ignoredScrollTop == Some(box.scrollTop)
      ensures overflowTranslationY == 0.0
    {
      var t := Min(v, 0.0);
      t := Max(t, -(box.ExtentY() as real));
      translationY := t;
      box.SetScrollTop(Max(-t, 0.0));
      ignoredScrollTop := Some(box.scrollTop);
      overflowTranslationY := OverflowOf(t, box.ExtentY());
    }

    /** updateTranslationFromScroll, which is also the window's scroll listener. */
    method UpdateTranslationFromScroll(doc: Document)
      modifies this`translationX, this`translationY, this`ignoredScrollLeft, this`ignoredScrollTop
      ensures ScrollBoxOf(doc) == null ==> unchanged(this)
      ensures ScrollBoxOf(doc) != null ==>
                TranslationState() == Resynced(old(TranslationState()), ScrollBoxOf(doc).scrollLeft, ScrollBoxOf(doc).scrollTop)
    {
      var box := ScrollBoxOf(doc);
      if box == null { return; }
      if Some(box.scrollLeft) != ignoredScrollLeft {
        translationX := -(box.scrollLeft as real);
        ignoredScrollLeft := None;
      }
      if Some(box.scrollTop) != ignoredScrollTop {
        translationY := -(box.scrollTop as real);
        ignoredScrollTop := None;
      }
    }

    /** The pointer record and the pan flag are as they were. */
    twostate predicate PointerUnchanged()
      reads this
    {
      mouseX == old(mouseX) && mouseY == old(mouseY) && shouldFollowMouse == old(shouldFollowMouse)
    }

    /** Neither the translation, the timers, the lock nor the page's styles changed. */
    twostate predicate NotRendered(page: Element?)
      reads this, page
    {
      && TranslationState() == old(TranslationState())
      && TimerState() == old(TimerState()) && controlDisabled == old(controlDisabled)
      && (page != null ==> page.style == old(page.style))
    }

    /**
     * The first half of applyScale: pageScale *= scaleBy clamped to [1, 10];
     * panning on exactly when the scale is not 1; the origin reset at scale 1.
     */
    twostate predicate Rescaled(scaleBy: real)
      reads this
    {
      && pageScale == ScaleAfter(old(pageScale), scaleBy)
      && canFollowMouse == (pageScale != 1.0)
      && (if pageScale == 1.0 then horizontalOriginShift == 0.0 && verticalOriginShift == 0.0
          else horizontalOriginShift == old(horizontalOriginShift) && verticalOriginShift == old(verticalOriginShift))
    }

    /** The whole effect of applyScale(doc, scaleBy, x, y) on the engine, the scroll box and the page `page`. */
    twostate predicate ScaleApplied(doc: Document, page: Element?, scaleBy: real, x: real, y: real)
      reads this, ScrollBoxSet(doc), page
    {
      var box := ScrollBoxOf(doc);
      && (box == null ==>
            && pageScale == old(pageScale) && canFollowMouse == old(canFollowMouse)
            && horizontalOriginShift == old(horizontalOriginShift) && verticalOriginShift == old(verticalOriginShift)
            && NotRendered(page))
      && (box != null ==> Rescaled(scaleBy))
      && (box != null && pageScale == old(pageScale) ==>
            NotRendered(page) && box.scrollLeft == old(box.scrollLeft) && box.scrollTop == old(box.scrollTop))
      && (box != null && pageScale != old(pageScale) ==>
            old(pageScale) != 0.0 && Zoomed(box, page, pageScale / old(pageScale), x, y))
    }

    /** The effect of applyScale's two renders and re-translation by `effective` about (x, y). */
    twostate predicate Zoomed(box: Element, page: Element?, effective: real, x: real, y: real)
      reads this, box, page
    {
      && TranslationState() == Retranslated(old(TranslationState()), box, effective, x, y)
      && box.scrollLeft == WrittenOffset(translationX, box.ExtentX())
      && box.scrollTop == WrittenOffset(translationY, box.ExtentY())
      && (page == null ==> TimerState() == old(TimerState()) && controlDisabled == old(controlDisabled))
      && (page != null ==>
            && TimerState() == Rendered(Rendered(old(TimerState()), None, None), None, None)
            && controlDisabled
            && page.style
               == Style(Some(Transform(LowQuality, pageScale)),
                        Some(Point(horizontalOriginShift, verticalOriginShift)),
                        EngagedLock(old(controlDisabled), disableScrollbarsWhenZooming,
                                    old(page.style.lock), Forced(page))))
    }

    /**
     * applyScale: clamp the scale to [1, 10]; re-arm or disarm panning; stop
     * when the clamp leaves the scale as it was; otherwise render, re-anchor
     * the translation about (x, y), clamp it into the scroll range, write the
     * native offsets and render again.
     */
    method ApplyScale(doc: Document, scaleBy: real, x: real, y: real)
      requires Valid()
      modifies this`pageScale, this`canFollowMouse, this`horizontalOriginShift, this`verticalOriginShift,
               this`pending, this`nextHandle, this`qualityTimeoutHandle, this`overflowTimeoutHandle,
               this`controlDisabled, this`translationX, this`translationY,
               this`ignoredScrollLeft, this`ignoredScrollTop, this`overflowTranslationX, this`overflowTranslationY,
               ScrollBoxSet(doc)`scrollLeft, ScrollBoxSet(doc)`scrollTop, PageSet()`style
      ensures Valid() && pageElement == old(pageElement) && PointerUnchanged()
      ensures ScaleApplied(doc, pageElement, scaleBy, x, y)
    {
      ghost var timersBefore := TimerState();
      assert Consistent(timersBefore);
      var box := ScrollBoxOf(doc);
      if box == null { return; }
      var effectiveScale := Rescale(scaleBy);
      assert TimerState() == timersBefore;
      if effectiveScale == 1.0 { return; }
      Zoom(box, effectiveScale, x, y);
      if pageElement != null {
        RenderedTwiceConsistent(timersBefore);
      }
    }

    /**
     * The first half of applyScale: pageScale *= scaleBy, clamped to [1, 10];
     * panning on exactly when the scale is not 1; the origin reset at scale 1.
     */
    method Rescale(scaleBy: real) returns (effectiveScale: real)
      requires ScaleInvariant()
      modifies this`pageScale, this`canFollowMouse, this`horizontalOriginShift, this`verticalOriginShift
      ensures ScaleInvariant()
      ensures pageElement == old(pageElement) && PointerUnchanged()
      ensures pageScale == ScaleAfter(old(pageScale), scaleBy)
      ensures canFollowMouse == (pageScale != 1.0)
      ensures if pageScale == 1.0 then horizontalOriginShift == 0.0 && verticalOriginShift == 0.0
              else horizontalOriginShift == old(horizontalOriginShift) && verticalOriginShift == old(verticalOriginShift)
      ensures effectiveScale == pageScale / old(pageScale)
      ensures effectiveScale == 1.0 <==> pageScale == old(pageScale)
    {
      var pageScaleBefore := pageScale;
      pageScale := ScaleAfter(pageScale, scaleBy);
      effectiveScale := pageScale / pageScaleBefore;
      assert effectiveScale == 1.0 <==> pageScale == pageScaleBefore;

      canFollowMouse := pageScale != 1.0;
      if pageScale == 1.0 && (horizontalOriginShift != 0.0 || verticalOriginShift != 0.0) {
        horizontalOriginShift := 0.0;
        verticalOriginShift := 0.0;
      }
    }

    /** The second half of applyScale: render, re-translate, render again. */
    method Zoom(box: Element, effectiveScale: real, x: real, y: real)
      modifies this`pending, this`nextHandle, this`qualityTimeoutHandle, this`overflowTimeoutHandle,
               this`controlDisabled, this`translationX, this`translationY,
               this`ignoredScrollLeft, this`ignoredScrollTop, this`overflowTranslationX, this`overflowTranslationY,
               box`scrollLeft, box`scrollTop, PageSet()`style
      ensures overflowTranslationX == 0.0 && overflowTranslationY == 0.0
      ensures pageElement == old(pageElement) && PointerUnchanged()
      ensures Zoomed(box, pageElement, effectiveScale, x, y)
    {
      UpdateTransform(None, None);
      RetranslateAndRender(box, effectiveScale, x, y);
    }

    /**
     * The part of applyScale after its first render: re-anchor both translations
     * by the effective factor, store them through setTranslationX/Y, render again.
     */
    method RetranslateAndRender(box: Element, effectiveScale: real, x: real, y: real)
      modifies this`pending, this`nextHandle, this`qualityTimeoutHandle, this`overflowTimeoutHandle,
               this`controlDisabled, this`translationX, this`translationY,
               this`ignoredScrollLeft, this`ignoredScrollTop, this`overflowTranslationX, this`overflowTranslationY,
               box`scrollLeft, box`scrollTop, PageSet()`style
      ensures TranslationState() == Retranslated(old(TranslationState()), box, effectiveScale, x, y)
      ensures box.scrollLeft == WrittenOffset(translationX, box.ExtentX())
      ensures box.scrollTop == WrittenOffset(translationY, box.ExtentY())
      ensures overflowTranslationX == 0.0 && overflowTranslationY == 0.0
      ensures pageElement == old(pageElement) && PointerUnchanged()
      ensures pageElement == null ==> TimerState() == old(TimerState()) && controlDisabled == old(controlDisabled)
      ensures pageElement != null ==>
                && TimerState() == Rendered(old(TimerState()), None, None)
                && controlDisabled
                && pageElement.style
                   == Style(Some(Transform(LowQuality, pageScale)),
                            Some(Point(horizontalOriginShift, verticalOriginShift)),
                            EngagedLock(old(controlDisabled), disableScrollbarsWhenZooming,
                                        old(pageElement.style.lock), Forced(pageElement)))
    {
      SetTranslationX(box, Anchor(translationX, x, effectiveScale));
      SetTranslationY(box, Anchor(translationY, y, effectiveScale));
      UpdateTransform(None, None);
    }

    /** Neither the scale, the panning state, the overflow nor the scroll offsets changed. */
    twostate predicate ScaleKept(doc: Document)
      reads this, ScrollBoxSet(doc)
    {
      && pageScale == old(pageScale) && canFollowMouse == old(canFollowMouse)
      && horizontalOriginShift == old(horizontalOriginShift) && verticalOriginShift == old(verticalOriginShift)
      && overflowTranslationX == old(overflowTranslationX) && overflowTranslationY == old(overflowTranslationY)
      && (ScrollBoxOf(doc) != null ==>
            && ScrollBoxOf(doc).scrollLeft == old(ScrollBoxOf(doc).scrollLeft)
            && ScrollBoxOf(doc).scrollTop == old(ScrollBoxOf(doc).scrollTop))
    }

    /**
     * The effect of resetScale(doc) on the engine, the scroll box and the page `page`:
     * scale 1, origin and overflow 0, a high-quality render that neither locks
     * nor touches the timers, the old offsets written back, the translation
     * re-read through the sentinels, and the overflow style cleared.
     * canFollowMouse is left as it was.
     */
    twostate predicate ScaleReset(doc: Document, page: Element?)
      reads this, ScrollBoxSet(doc), page
    {
      var box := ScrollBoxOf(doc);
      && TimerState() == old(TimerState()) && controlDisabled == old(controlDisabled)
      && canFollowMouse == old(canFollowMouse)
      && (box == null ==> ScaleKept(doc) && NotRendered(page))
      && (box != null ==>
            && pageScale == 1.0
            && horizontalOriginShift == 0.0 && verticalOriginShift == 0.0
            && overflowTranslationX == 0.0 && overflowTranslationY == 0.0
            && box.scrollLeft == NativeOffset(old(box.scrollLeft) as real, box.ExtentX())
            && box.scrollTop == NativeOffset(old(box.scrollTop) as real, box.ExtentY())
            && TranslationState()
               == Resynced(Translation(0.0, 0.0, old(ignoredScrollLeft), old(ignoredScrollTop)), box.scrollLeft, box.scrollTop)
            && (page != null ==>
                  page.style == Style(Some(Transform(HighQuality, 1.0)), Some(Point(0.0, 0.0)),
                                      old(page.style.lock).(overflow := OverflowUnset))))
    }

    /** resetScale (Ctrl+0 and shutdown). */
    method ResetScale(doc: Document)
      requires Valid()
      modifies this`pageScale, this`horizontalOriginShift, this`verticalOriginShift,
               this`pending, this`nextHandle, this`qualityTimeoutHandle, this`overflowTimeoutHandle,
               this`controlDisabled, this`translationX, this`translationY,
               this`ignoredScrollLeft, this`ignoredScrollTop, this`overflowTranslationX, this`overflowTranslationY,
               ScrollBoxSet(doc)`scrollLeft, ScrollBoxSet(doc)`scrollTop, PageSet()`style
      ensures Valid()
      ensures ScaleReset(doc, pageElement)
    {
      ghost var timersBefore := TimerState();
      assert Consistent(timersBefore);
      var box := ScrollBoxOf(doc);
      if box == null { return; }
      var scrollLeftBefore := box.scrollLeft;
      var scrollTopBefore := box.scrollTop;
      RenderReset();
      WriteBackScroll(doc, box, scrollLeftBefore, scrollTopBefore);
      if pageElement != null {
        pageElement.style := pageElement.style.(lock := pageElement.style.lock.(overflow := OverflowUnset));
      }
      assert TimerState() == timersBefore;
    }

    /**
     * The first part of resetScale: scale 1, translation, overflow and origin 0,
     * then a high-quality render that does not lock.
     */
    method RenderReset()
      modifies this`pageScale, this`horizontalOriginShift, this`verticalOriginShift,
               this`pending, this`nextHandle, this`qualityTimeoutHandle, this`overflowTimeoutHandle,
               this`controlDisabled, this`translationX, this`translationY,
               this`overflowTranslationX, this`overflowTranslationY, PageSet()`style
      ensures pageScale == 1.0 && translationX == 0.0 && translationY == 0.0
      ensures overflowTranslationX == 0.0 && overflowTranslationY == 0.0
      ensures horizontalOriginShift == 0.0 && verticalOriginShift == 0.0
      ensures TimerState() == old(TimerState()) && controlDisabled == old(controlDisabled)
      ensures pageElement != null ==>
                pageElement.style == Style(Some(Transform(HighQuality, 1.0)), Some(Point(0.0, 0.0)), old(pageElement.style.lock))
    {
      pageScale := 1.0;
      translationX, translationY := 0.0, 0.0;
      overflowTranslationX, overflowTranslationY := 0.0, 0.0;
      horizontalOriginShift, verticalOriginShift := 0.0, 0.0;
      UpdateTransform(Some(0), Some(false));
    }

    /**
     * The part of resetScale after its render: write the remembered offsets
     * back and re-read the translation through the sentinels.
     */
    method WriteBackScroll(doc: Document, box: Element, left: int, top: int)
      requires box == ScrollBoxOf(doc)
      modifies this`translationX, this`translationY, this`ignoredScrollLeft, this`ignoredScrollTop,
               box`scrollLeft, box`scrollTop
      ensures box.scrollLeft == NativeOffset(left as real, box.ExtentX())
      ensures box.scrollTop == NativeOffset(top as real, box.ExtentY())
      ensures TranslationState() == Resynced(old(TranslationState()), box.scrollLeft, box.scrollTop)
    {
      box.SetScrollLeft(left as real);
      box.SetScrollTop(top as real);
      UpdateTranslationFromScroll(doc);
    }

    /**
     * The document's mousemove listener: nothing unless panning is armed by a
     * zoom; with Shift held and a pointer already recorded, the origin shift
     * follows the pointer and is written to the page; then the pointer is
     * recorded. Without a page element the style write throws and the pointer
     * is not recorded.
     */
    method MouseMove(clientX: real, clientY: real)
      requires Valid()
      modifies this`horizontalOriginShift, this`verticalOriginShift, this`mouseX, this`mouseY, PageSet()`style
      ensures Valid()
      ensures !canFollowMouse ==>
                && horizontalOriginShift == old(horizontalOriginShift) && verticalOriginShift == old(verticalOriginShift)
                && mouseX == old(mouseX) && mouseY == old(mouseY)
                && (pageElement != null ==> pageElement.style == old(pageElement.style))
      ensures canFollowMouse ==>
                var last := Recorded(old(mouseX), old(mouseY));
                var origin := Point(old(horizontalOriginShift), old(verticalOriginShift));
                var shifting := shouldFollowMouse && last.Some?;
                && Point(horizontalOriginShift, verticalOriginShift)
                   == (if shifting then PanStep(origin, last.value, Point(clientX, clientY)) else origin)
                && (if shifting && pageElement == null then mouseX == old(mouseX) && mouseY == old(mouseY)
                    else mouseX == Some(clientX) && mouseY == Some(clientY))
                && (pageElement != null ==>
                      pageElement.style
                      == if shifting then old(pageElement.style).(origin := Some(Point(horizontalOriginShift, verticalOriginShift)))
                         else old(pageElement.style))
    {
      if !canFollowMouse { return; }
      if shouldFollowMouse && mouseX.Some? && mouseY.Some? {
        horizontalOriginShift := horizontalOriginShift + (clientX - mouseX.value);
        verticalOriginShift := verticalOriginShift + (clientY - mouseY.value);
        if pageElement == null { return; }
        pageElement.style := pageElement.style.(origin := Some(Point(horizontalOriginShift, verticalOriginShift)));
      }
      mouseX, mouseY := Some(clientX), Some(clientY);
    }

    /** The window's keydown listener: Ctrl+0 resets the zoom; any other key arms panning while Shift is held. */
    method KeyDown(doc: Document, key: string, ctrlKey: bool, shiftKey: bool)
      requires Valid()
      modifies this`pageScale, this`horizontalOriginShift, this`verticalOriginShift,
               this`pending, this`nextHandle, this`qualityTimeoutHandle, this`overflowTimeoutHandle,
               this`controlDisabled, this`translationX, this`translationY,
               this`ignoredScrollLeft, this`ignoredScrollTop, this`overflowTranslationX, this`overflowTranslationY,
               this`shouldFollowMouse, ScrollBoxSet(doc)`scrollLeft, ScrollBoxSet(doc)`scrollTop, PageSet()`style
      ensures Valid()
      ensures key == "0" && ctrlKey ==> ScaleReset(doc, pageElement) && shouldFollowMouse == old(shouldFollowMouse)
      ensures !(key == "0" && ctrlKey) ==>
                && shouldFollowMouse == shiftKey
                && ScaleKept(doc) && NotRendered(pageElement)
    {
      if key == "0" && ctrlKey {
        ResetScale(doc);
        return;
      }
      shouldFollowMouse := shiftKey;
    }

    /** The window's keyup listener: panning stays armed only while Shift is held. */
    method KeyUp(shiftKey: bool)
      modifies this`shouldFollowMouse
      ensures shouldFollowMouse == shiftKey
    {
      shouldFollowMouse := shiftKey;
    }

    /**
     * The page's wheel listener. With Shift held and shiftKeyZoom on, an event
     * not yet handled zooms by pageScale / (pageScale + deltaY * pinchZoomSpeed * zoomSpeedMultiplier)
     * about the pointer, taken relative to the scroll box, and is consumed; an
     * event already handled is left alone. Otherwise the lock is released.
     */
    method OnWheel(doc: Document, shiftKey: bool, defaultPrevented: bool, deltaY: real, clientX: real, clientY: real)
      returns (consumed: bool)
      requires Valid()
      requires ScrollBoxOf(doc) != null
      requires shiftKey && shiftKeyZoom && !defaultPrevented ==>
                 pageScale + deltaY * (pinchZoomSpeed * ZoomSpeedMultiplier) != 0.0
      modifies this`pageScale, this`canFollowMouse, this`horizontalOriginShift, this`verticalOriginShift,
               this`pending, this`nextHandle, this`qualityTimeoutHandle, this`overflowTimeoutHandle,
               this`controlDisabled, this`translationX, this`translationY,
               this`ignoredScrollLeft, this`ignoredScrollTop, this`overflowTranslationX, this`overflowTranslationY,
               ScrollBoxSet(doc)`scrollLeft, ScrollBoxSet(doc)`scrollTop, PageSet()`style
      ensures Valid()
      ensures consumed == (shiftKey && shiftKeyZoom && !defaultPrevented)
      ensures consumed ==>
                var box := ScrollBoxOf(doc);
                ScaleApplied(doc, pageElement, WheelScaleBy(old(pageScale), deltaY, pinchZoomSpeed),
                             clientX - box.offsetLeft as real, clientY - box.offsetTop as real)
      ensures shiftKey && shiftKeyZoom && defaultPrevented ==> ScaleKept(doc) && NotRendered(pageElement)
      ensures !(shiftKey && shiftKeyZoom) ==>
                && ControlRestored(pageElement) && ScaleKept(doc)
                && TranslationState() == old(TranslationState()) && TimerState() == old(TimerState())
    {
      if shiftKey && shiftKeyZoom {
        if defaultPrevented { return false; }
        WheelZoom(doc, deltaY, clientX, clientY);
        consumed := true;
      } else {
        RestoreControl();
        consumed := false;
      }
    }

    /** The zooming path of the wheel listener. */
    method WheelZoom(doc: Document, deltaY: real, clientX: real, clientY: real)
      requires Valid()
      requires ScrollBoxOf(doc) != null
      requires pageScale + deltaY * (pinchZoomSpeed * ZoomSpeedMultiplier) != 0.0
      modifies this`pageScale, this`canFollowMouse, this`horizontalOriginShift, this`verticalOriginShift,
               this`pending, this`nextHandle, this`qualityTimeoutHandle, this`overflowTimeoutHandle,
               this`controlDisabled, this`translationX, this`translationY,
               this`ignoredScrollLeft, this`ignoredScrollTop, this`overflowTranslationX, this`overflowTranslationY,
               ScrollBoxSet(doc)`scrollLeft, ScrollBoxSet(doc)`scrollTop, PageSet()`style
      ensures Valid()
      ensures var box := ScrollBoxOf(doc);
              ScaleApplied(doc, pageElement, WheelScaleBy(old(pageScale), deltaY, pinchZoomSpeed),
                           clientX - box.offsetLeft as real, clientY - box.offsetTop as real)
    {
      var box := ScrollBoxOf(doc);
      var x := clientX - box.offsetLeft as real;
      var y := clientY - box.offsetTop as real;
      var deltaMultiplier := pinchZoomSpeed * ZoomSpeedMultiplier;
      var newScale := pageScale + deltaY * deltaMultiplier;
      var scaleBy := pageScale / newScale;
      assert scaleBy == WheelScaleBy(pageScale, deltaY, pinchZoomSpeed);
      ApplyScale(doc, scaleBy, x, y);
    }

    /**
     * The host runs the pending timer `h`: the quality upgrade re-renders the
     * page at high quality with the scale current at that moment; the release
     * runs restoreControl. The engine keeps the handle, so a later clearTimeout
     * on it cancels nothing.
     */
    method FireTimer(h: nat)
      requires Valid()
      requires h in pending
      modifies this`pending, this`controlDisabled, PageSet()`style
      ensures Valid()
      ensures TimerState() == Fired(old(TimerState()), h)
      ensures old(pending[h]) == QualityUpgrade ==>
                && controlDisabled == old(controlDisabled)
                && (pageElement != null ==>
                      pageElement.style == old(pageElement.style).(transform := Some(Transform(HighQuality, pageScale))))
      ensures old(pending[h]) == ReleaseControl ==> ControlRestored(pageElement)
    {
      FiredConsistent(TimerState(), h);
      var task := pending[h];
      pending := pending - {h};
      match task
      case QualityUpgrade =>
        if pageElement != null {
          pageElement.style := pageElement.style.(transform := Some(Transform(HighQuality, pageScale)));
        }
      case ReleaseControl =>
        RestoreControl();
    }

    /**
     * attachToDocument: only a document with a window, an HTML content type
     * and no marker yet is taken; it is marked and its root becomes the page
     * element (even when there is none). The rest of the engine's state is
     * carried over from the previous document.
     */
    method Attach(doc: Document?) returns (outcome: AttachOutcome)
      modifies this`pageElement, DocSet(doc)`attached
      ensures doc == null || !doc.hasDefaultView ==> outcome == NoDefaultView
      ensures doc != null && doc.hasDefaultView && !IsHtml(doc.contentType) ==> outcome == NotHtml
      ensures doc != null && doc.hasDefaultView && IsHtml(doc.contentType) && old(doc.attached) ==> outcome == AlreadyAttached
      ensures doc != null && doc.hasDefaultView && IsHtml(doc.contentType) && !old(doc.attached) ==>
                outcome == (if doc.documentElement == null then NoRoot else Installed)
      ensures outcome != Installed && outcome != NoRoot ==> pageElement == old(pageElement) && unchanged(DocSet(doc))
      ensures outcome == Installed || outcome == NoRoot ==>
                && doc != null && doc.hasDefaultView && IsHtml(doc.contentType) && !old(doc.attached)
                && doc.attached && pageElement == doc.documentElement
    {
      if doc == null || !doc.hasDefaultView { return NoDefaultView; }
      if !IsHtml(doc.contentType) { return NotHtml; }
      if doc.attached { return AlreadyAttached; }
      doc.attached := true;
      pageElement := doc.documentElement;
      if pageElement == null { return NoRoot; }
      var scrollBox := ScrollBoxOf(doc);
      if scrollBox == null { return NoRoot; }
      return Installed;
    }

    /**
     * The "mtzoom:prefs" message listener: each setting is replaced only by a
     * field of its own type; a message without data changes nothing.
     */
    method OnPrefsMessage(data: Option<map<string, JsValue>>)
      modifies this`shiftKeyZoom, this`pinchZoomSpeed, this`disableScrollbarsWhenZooming
      ensures data == None ==> unchanged(this)
      ensures data.Some? ==>
                && shiftKeyZoom == BoolField(data.value, "shiftKeyZoom", old(shiftKeyZoom))
                && pinchZoomSpeed == NumberField(data.value, "pinchZoomSpeed", old(pinchZoomSpeed))
                && disableScrollbarsWhenZooming
                   == BoolField(data.value, "disableScrollbarsWhenZooming", old(disableScrollbarsWhenZooming))
    {
      if data == None { return; }
      var fields := data.value;
      shiftKeyZoom := BoolField(fields, "shiftKeyZoom", shiftKeyZoom);
      pinchZoomSpeed := NumberField(fields, "pinchZoomSpeed", pinchZoomSpeed);
      disableScrollbarsWhenZooming := BoolField(fields, "disableScrollbarsWhenZooming", disableScrollbarsWhenZooming);
    }

    /** The "mtzoom:shutdown" message listener: reset the current document, if any. */
    method OnShutdown(doc: Document?)
      requires Valid()
      modifies this`pageScale, this`horizontalOriginShift, this`verticalOriginShift,
               this`pending, this`nextHandle, this`qualityTimeoutHandle, this`overflowTimeoutHandle,
               this`controlDisabled, this`translationX, this`translationY,
               this`ignoredScrollLeft, this`ignoredScrollTop, this`overflowTranslationX, this`overflowTranslationY,
               BoxesOf(doc)`scrollLeft, BoxesOf(doc)`scrollTop, PageSet()`style
      ensures Valid()
      ensures doc != null ==> ScaleReset(doc, pageElement)
      ensures doc == null ==> unchanged(this) && unchanged(PageSet())
    {
      if doc != null {
        ResetScale(doc);
      }
    }
  }
}

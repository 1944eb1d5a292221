/** The glass slider component: a value between a minimum and a maximum,
    drawn as a track, a foreground filled up to the value and a glass knob
    centred on the end of the foreground; a tap jumps to the tapped value and
    a pan moves the value by the distance dragged since the pan began. */
module GlassSlider {
  import opened Geometry
  import GlassSwitch

  const SliderHeight: real := 44.0
  const TrackHeight: real := 4.0

  /** The IEEE-754 values a slider expression reaches: a division by a track
      of zero width gives an infinity, or NaN for zero over zero. */
  datatype Float = Finite(v: real) | PosInf | NegInf | NaN

  function Quotient(a: real, b: real): Float {
    if b != 0.0 then Finite(a / b) else if a > 0.0 then PosInf else if a < 0.0 then NegInf else NaN
  }

  function Product(f: Float, b: real): Float {
    match f
    case Finite(v) => Finite(v * b)
    case PosInf => if b > 0.0 then PosInf else if b < 0.0 then NegInf else NaN
    case NegInf => if b > 0.0 then NegInf else if b < 0.0 then PosInf else NaN
    case NaN => NaN
  }

  function Sum(a: real, f: Float): Float {
    if f.Finite? then Finite(a + f.v) else f
  }

  /** IEEE `<`: false whenever NaN is involved. */
  predicate Less(x: Float, y: Float) {
    && !x.NaN? && !y.NaN?
    && ((x.NegInf? && !y.NegInf?) || (!x.PosInf? && y.PosInf?) || (x.Finite? && y.Finite? && x.v < y.v))
  }

  /** IEEE `>=`. */
  predicate AtLeast(x: Float, y: Float) {
    !x.NaN? && !y.NaN? && !Less(x, y)
  }

  /** The standard library's `min(x, y)` and `max(x, y)`. */
  function SwiftMin(x: Float, y: Float): Float { if Less(y, x) then y else x }

  function SwiftMax(x: Float, y: Float): Float { if AtLeast(y, x) then y else x }

  /** `max(lo, min(hi, f))` over IEEE values, which is always finite. */
  function ClampFloat(f: Float, lo: real, hi: real): (r: real)
    ensures f.Finite? ==> r == Clamp(f.v, lo, hi)
    ensures f.NegInf? ==> r == lo
    ensures !f.Finite? && !f.NegInf? ==> r == Max(lo, hi)
  {
    match SwiftMax(Finite(lo), SwiftMin(Finite(hi), f))
    case Finite(v) => v
    case _ => lo
  }

  /** The component's properties; the two closures only by identity. */
  datatype SliderComponent = SliderComponent(
    value: real,
    minValue: real,
    maxValue: real,
    trackBackgroundColor: Color,
    trackForegroundColor: Color,
    knobSize: real,
    valueUpdated: Handler,
    isTrackingUpdated: Option<Handler>)

  /** `==`: every property but the two closures. */
  function Equal(l: SliderComponent, r: SliderComponent): (b: bool)
    ensures b <==> l.(valueUpdated := r.valueUpdated, isTrackingUpdated := r.isTrackingUpdated) == r
  {
    && l.value == r.value && l.minValue == r.minValue && l.maxValue == r.maxValue
    && l.trackBackgroundColor == r.trackBackgroundColor && l.trackForegroundColor == r.trackForegroundColor
    && l.knobSize == r.knobSize
  }

  /** Component equality is an equivalence that ignores the closures. */
  lemma EqualIsEquivalence(a: SliderComponent, b: SliderComponent, c: SliderComponent, h: Handler, t: Option<Handler>)
    ensures Equal(a, a) && Equal(a, a.(valueUpdated := h, isTrackingUpdated := t))
    ensures Equal(a, b) ==> Equal(b, a)
    ensures Equal(a, b) && Equal(b, c) ==> Equal(a, c)
  {
  }

  /** The tapped position as a fraction of the track, clamped to [0, 1]; on a
      track of zero width every tap from the knob's centre rightwards is 1 and
      every tap to its left is 0. */
  function TapFraction(location: real, knobSize: real, width: real): (r: real)
    ensures 0.0 <= r <= 1.0
    ensures width - knobSize != 0.0 ==> r == Clamp((location - knobSize / 2.0) / (width - knobSize), 0.0, 1.0)
    ensures width - knobSize == 0.0 ==> r == if location < knobSize / 2.0 then 0.0 else 1.0
  {
    ClampFloat(Quotient(location - knobSize / 2.0, width - knobSize), 0.0, 1.0)
  }

  /** handleTap's new value for a tap at `location` in a view `width` wide. */
  function TapValue(c: SliderComponent, location: real, width: real): (r: real)
    ensures c.minValue <= c.maxValue ==> c.minValue <= r <= c.maxValue
    ensures r == Lerp(c.minValue, c.maxValue, TapFraction(location, c.knobSize, width))
  {
    LerpBetween(c.minValue, c.maxValue, TapFraction(location, c.knobSize, width));
    Lerp(c.minValue, c.maxValue, TapFraction(location, c.knobSize, width))
  }

  /** handlePan's new value: the value at the start of the pan moved by the
      drag distance since then as a share of the track, clamped to the range.
      On a track of zero width the value jumps to the maximum, or to the
      minimum for a drag to the left. */
  function PanValue(c: SliderComponent, startValue: real, deltaX: real, width: real): (r: real)
    ensures c.minValue <= c.maxValue ==> c.minValue <= r <= c.maxValue
    ensures width - c.knobSize != 0.0 ==>
      r == Clamp(startValue + deltaX / (width - c.knobSize) * (c.maxValue - c.minValue), c.minValue, c.maxValue)
    ensures width - c.knobSize == 0.0 && c.minValue <= c.maxValue ==>
      r == if deltaX < 0.0 then c.minValue else c.maxValue
  {
    var delta := Product(Quotient(deltaX, width - c.knobSize), c.maxValue - c.minValue);
    ClampFloat(Sum(startValue, delta), c.minValue, c.maxValue)
  }

  /** The frames update lays out. */
  datatype SliderLayout = SliderLayout(size: Size, trackFrame: Rect, foregroundFrame: Rect, knobFrame: Rect)

  /** update's geometry for an available width: a track inset by half a knob
      at each end and centred vertically, a foreground over its first part in
      proportion to the value, and the knob centred on the foreground's end. */
  function Layout(c: SliderComponent, availableWidth: real): (r: SliderLayout)
    requires c.maxValue != c.minValue
    ensures r.size == Size(availableWidth, SliderHeight)
    ensures r.trackFrame == Rect(c.knobSize / 2.0, (SliderHeight - TrackHeight) / 2.0, availableWidth - c.knobSize, TrackHeight)
    ensures r.foregroundFrame == r.trackFrame.(w := r.foregroundFrame.w)
    ensures r.foregroundFrame.w == (availableWidth - c.knobSize) * ((c.value - c.minValue) / (c.maxValue - c.minValue))
    ensures MidX(r.knobFrame) == r.foregroundFrame.x + r.foregroundFrame.w
    ensures MidY(r.knobFrame) == MidY(r.trackFrame) && r.knobFrame.w == c.knobSize && r.knobFrame.h == c.knobSize
  {
    var trackY := (SliderHeight - TrackHeight) / 2.0;
    var trackWidth := availableWidth - c.knobSize;
    var normalizedValue := (c.value - c.minValue) / (c.maxValue - c.minValue);
    var foregroundWidth := trackWidth * normalizedValue;
    var knobX := c.knobSize / 2.0 + foregroundWidth - c.knobSize / 2.0;
    var knobY := (SliderHeight - c.knobSize) / 2.0;
    SliderLayout(Size(availableWidth, SliderHeight),
                 Rect(c.knobSize / 2.0, trackY, trackWidth, TrackHeight),
                 Rect(c.knobSize / 2.0, trackY, foregroundWidth, TrackHeight),
                 Rect(knobX, knobY, c.knobSize, c.knobSize))
  }

  /** A value inside the range fills the foreground over that share of a
      track of non-negative width: none of it at the minimum, all of it at
      the maximum. */
  lemma {:induction false} ForegroundWithinTrack(c: SliderComponent, availableWidth: real)
    requires c.minValue < c.maxValue && c.minValue <= c.value <= c.maxValue && c.knobSize <= availableWidth
    ensures var r := Layout(c, availableWidth);
      0.0 <= r.foregroundFrame.w <= r.trackFrame.w
    ensures c.value == c.minValue ==> Layout(c, availableWidth).foregroundFrame.w == 0.0
    ensures c.value == c.maxValue ==> Layout(c, availableWidth).foregroundFrame.w == Layout(c, availableWidth).trackFrame.w
  {
    var n := (c.value - c.minValue) / (c.maxValue - c.minValue);
    var tw := availableWidth - c.knobSize;
    UnitFraction(c.value - c.minValue, c.maxValue - c.minValue);
    ProductNonNegative(tw, n);
    ProductNonNegative(tw, 1.0 - n);
    assert tw * (1.0 - n) == tw - tw * n;
  }

  /** Tapping the laid-out knob's centre gives back the value. */
  lemma {:induction false} TapAtKnobGivesValue(c: SliderComponent, width: real)
    requires c.minValue < c.maxValue && c.minValue <= c.value <= c.maxValue && width - c.knobSize != 0.0
    ensures TapValue(c, MidX(Layout(c, width).knobFrame), width) == c.value
  {
    var range := c.maxValue - c.minValue;
    var tw := width - c.knobSize;
    var n := (c.value - c.minValue) / range;
    assert n * range == c.value - c.minValue;
    UnitFraction(c.value - c.minValue, range);
    var x := MidX(Layout(c, width).knobFrame);
    assert x - c.knobSize / 2.0 == tw * n;
    assert (tw * n) / tw == n;
    assert TapFraction(x, c.knobSize, width) == n;
  }

  /** A part of a positive whole is a fraction in [0, 1]. */
  lemma UnitFraction(part: real, whole: real)
    requires 0.0 <= part <= whole && 0.0 < whole
    ensures 0.0 <= part / whole <= 1.0
  {
  }

  /** Dividing by a non-zero number undoes multiplying by it, and back. */
  lemma Cancel(a: real, b: real)
    requires b != 0.0
    ensures (a * b) / b == a && (a / b) * b == a
  {
  }

  /** The value a tap on the track gives is laid out with the knob centred
      on the tap. */
  lemma {:induction false} LayoutAtTapCentresKnob(c: SliderComponent, width: real, location: real)
    requires c.minValue < c.maxValue && c.knobSize / 2.0 <= location <= width - c.knobSize / 2.0
    requires width - c.knobSize != 0.0
    ensures MidX(Layout(c.(value := TapValue(c, location, width)), width).knobFrame) == location
  {
    var range := c.maxValue - c.minValue;
    var tw := width - c.knobSize;
    var d := location - c.knobSize / 2.0;
    UnitFraction(d, tw);
    var f := d / tw;
    Cancel(d, tw);
    assert TapFraction(location, c.knobSize, width) == f;
    var v := TapValue(c, location, width);
    assert v - c.minValue == f * range;
    Cancel(f, range);
    var l := Layout(c.(value := v), width);
    assert l.foregroundFrame.w == tw * f;
    assert MidX(l.knobFrame) == c.knobSize / 2.0 + tw * f;
  }

  /** One call of a component closure. */
  datatype SliderEvent = ValueUpdated(value: real) | TrackingUpdated(tracking: bool)

  /** The states of the pan recognizer, with its location where handlePan
      reads it. */
  datatype PanEvent = Began(location: Point) | Changed(location: Point) | Ended | Cancelled | Possible | Failed

  /** Everything the slider view holds. The knob is the switch's thumb
      design; `pendingReleases` counts the delayed un-highlights of taps. */
  datatype SliderState = SliderState(
    component: Option<SliderComponent>,
    bounds: Rect,
    isTracking: bool,
    trackingStartValue: real,
    trackingStartLocation: Point,
    trackBackgroundColor: Option<Color>,
    trackForegroundColor: Option<Color>,
    trackFrame: Rect,
    foregroundFrame: Rect,
    knob: GlassSwitch.ThumbState,
    events: seq<SliderEvent>,
    pendingReleases: nat)

  function InitialSlider(frame: Rect): SliderState {
    SliderState(None, Rect(0.0, 0.0, frame.w, frame.h), false, 0.0, Point(0.0, 0.0), None, None, ZeroRect, ZeroRect,
                GlassSwitch.ThumbState(ZeroRect, 0.0, false, 0), [], 0)
  }

  /** handleTap: without a component nothing happens; otherwise the knob is
      pressed, its release is scheduled and the tapped value is reported once. */
  function Tap(s: SliderState, location: Point): (r: SliderState)
    ensures s.component.None? ==> r == s
    ensures s.component.Some? ==>
      && r.events == s.events + [ValueUpdated(TapValue(s.component.value, location.x, Width(s.bounds)))]
      && r.knob == GlassSwitch.ThumbHighlight(s.knob, true) && r.pendingReleases == s.pendingReleases + 1
      && r == s.(events := r.events, knob := r.knob, pendingReleases := r.pendingReleases)
  {
    if s.component.None? then s
    else
      var c := s.component.value;
      s.(knob := GlassSwitch.ThumbHighlight(s.knob, true), pendingReleases := s.pendingReleases + 1,
         events := s.events + [ValueUpdated(TapValue(c, location.x, Width(s.bounds)))])
  }

  /** The block handleTap schedules: the knob is released. */
  function Release(s: SliderState): (r: SliderState)
    requires 0 < s.pendingReleases
    ensures r == s.(knob := GlassSwitch.ThumbHighlight(s.knob, false), pendingReleases := s.pendingReleases - 1)
  {
    s.(knob := GlassSwitch.ThumbHighlight(s.knob, false), pendingReleases := s.pendingReleases - 1)
  }

  function TrackingReport(c: SliderComponent, tracking: bool): seq<SliderEvent> {
    if c.isTrackingUpdated.Some? then [TrackingUpdated(tracking)] else []
  }

  /** handlePan: without a component nothing happens. A pan's beginning
      starts tracking from the component's value and the touch location; each
      change reports the start value moved by the distance from that
      location; its end stops tracking and reports no value. */
  function Pan(s: SliderState, e: PanEvent): (r: SliderState)
    ensures s.component.None? || e.Possible? || e.Failed? ==> r == s
    ensures s.component.Some? && e.Began? ==>
      r == s.(isTracking := true, trackingStartValue := s.component.value.value,
              trackingStartLocation := e.location, knob := GlassSwitch.ThumbHighlight(s.knob, true),
              events := s.events + TrackingReport(s.component.value, true))
    ensures s.component.Some? && e.Changed? ==>
      r == s.(events := s.events + [ValueUpdated(PanValue(s.component.value, s.trackingStartValue,
                                                             e.location.x - s.trackingStartLocation.x, Width(s.bounds)))])
    ensures s.component.Some? && (e.Ended? || e.Cancelled?) ==>
      r == s.(isTracking := false, knob := GlassSwitch.ThumbHighlight(s.knob, false),
              events := s.events + TrackingReport(s.component.value, false))
  {
    if s.component.None? then s
    else
      var c := s.component.value;
      match e
      case Began(location) =>
        s.(isTracking := true, trackingStartValue := c.value, trackingStartLocation := location,
           knob := GlassSwitch.ThumbHighlight(s.knob, true), events := s.events + TrackingReport(c, true))
      case Changed(location) =>
        var deltaX := location.x - s.trackingStartLocation.x;
        s.(events := s.events + [ValueUpdated(PanValue(c, s.trackingStartValue, deltaX, Width(s.bounds)))])
      case Ended =>
        s.(isTracking := false, knob := GlassSwitch.ThumbHighlight(s.knob, false), events := s.events + TrackingReport(c, false))
      case Cancelled =>
        s.(isTracking := false, knob := GlassSwitch.ThumbHighlight(s.knob, false), events := s.events + TrackingReport(c, false))
      case Possible => s
      case Failed => s
  }

  /** The last value a state reported, if any. */
  function LastValue(events: seq<SliderEvent>): (r: Option<real>)
    ensures r.Some? ==> ValueUpdated(r.value) in events
    ensures |events| > 0 && events[|events| - 1].ValueUpdated? ==> r == Some(events[|events| - 1].value)
  {
    if |events| == 0 then None
    else if events[|events| - 1].ValueUpdated? then Some(events[|events| - 1].value)
    else LastValue(events[..|events| - 1])
  }

  /** Every reported value lies in the component's range. */
  lemma PanAndTapReportInRange(s: SliderState, e: PanEvent, location: Point)
    requires s.component.Some? && s.component.value.minValue <= s.component.value.maxValue
    ensures var c := s.component.value;
      && (e.Changed? ==> c.minValue <= LastValue(Pan(s, e).events).value <= c.maxValue)
      && c.minValue <= LastValue(Tap(s, location).events).value <= c.maxValue
  {
  }

  /** The drag is measured from where the pan began: any changes between
      leave the value a later change reports as if it were the first. */
  lemma PanMeasuredFromStart(s: SliderState, l1: Point, l2: Point)
    requires s.component.Some?
    ensures LastValue(Pan(Pan(s, Changed(l1)), Changed(l2)).events) == LastValue(Pan(s, Changed(l2)).events)
  {
  }

  /** A pan that returns to its starting point reports the start value again
      (when the track has a width and the start value is in range). */
  lemma PanBackToStart(s: SliderState, start: Point, e: PanEvent)
    requires s.component.Some? && e.Changed? && e.location.x == start.x
    requires var c := s.component.value;
      c.minValue <= c.value <= c.maxValue && Width(s.bounds) - c.knobSize != 0.0
    ensures var began := Pan(s, Began(start));
      LastValue(Pan(began, e).events) == Some(s.component.value.value)
  {
    var c := s.component.value;
    var tw := Width(s.bounds) - c.knobSize;
    assert 0.0 / tw * (c.maxValue - c.minValue) == 0.0;
    assert PanValue(c, c.value, 0.0, Width(s.bounds)) == c.value;
  }

  /** update: stores the component, paints the track, lays out the frames and
      moves the knob unless a pan is tracking it. */
  function UpdateSlider(s: SliderState, c: SliderComponent, availableWidth: real): (r: SliderState)
    requires c.maxValue != c.minValue
    ensures var l := Layout(c, availableWidth);
      && r.component == Some(c) && r.trackFrame == l.trackFrame && r.foregroundFrame == l.foregroundFrame
      && r.trackBackgroundColor == Some(c.trackBackgroundColor) && r.trackForegroundColor == Some(c.trackForegroundColor)
      && (s.isTracking ==> r.knob == s.knob)
      && (!s.isTracking ==> r.knob == s.knob.(frame := l.knobFrame))
      && r.events == s.events && r.isTracking == s.isTracking
    ensures r == s.(component := r.component, trackBackgroundColor := r.trackBackgroundColor,
                    trackForegroundColor := r.trackForegroundColor, trackFrame := r.trackFrame,
                    foregroundFrame := r.foregroundFrame, knob := r.knob)
  {
    var l := Layout(c, availableWidth);
    var s1 := s.(component := Some(c), trackBackgroundColor := Some(c.trackBackgroundColor),
                 trackForegroundColor := Some(c.trackForegroundColor),
                 trackFrame := l.trackFrame, foregroundFrame := l.foregroundFrame);
    if s.isTracking then s1 else s1.(knob := s1.knob.(frame := l.knobFrame))
  }

  /** A knob dragged by a pan stays put across updates until the pan ends;
      the first update after it snaps the knob to the value. */
  lemma TrackingHoldsKnob(s: SliderState, c: SliderComponent, start: Point, w: real)
    requires c.maxValue != c.minValue
    ensures var began := Pan(UpdateSlider(s, c, w), Began(start));
      UpdateSlider(began, c, w).knob.frame == began.knob.frame
    ensures var ended := Pan(Pan(UpdateSlider(s, c, w), Began(start)), Ended);
      UpdateSlider(ended, c, w).knob.frame == Layout(c, w).knobFrame
  {
  }

  class LiquidGlassKnobView {
    var frame: Rect
    var highlightOpacity: real
    /** Whether `transform` is the pressed scale rather than identity. */
    var pressed: bool
    var highlightAnimations: nat

    function State(): GlassSwitch.ThumbState
      reads this
    {
      GlassSwitch.ThumbState(frame, highlightOpacity, pressed, highlightAnimations)
    }

    constructor (frame: Rect)
      ensures State() == GlassSwitch.ThumbState(frame, 0.0, false, 0)
    {
      this.frame, highlightOpacity, pressed, highlightAnimations := frame, 0.0, false, 0;
    }

    method SetFrame(f: Rect)
      modifies this
      ensures State() == old(State()).(frame := f)
    {
      frame := f;
    }

    /** Pressed: highlight shown and shrunk; released: both undone. No guard. */
    method AnimateHighlight(highlighted: bool)
      modifies this
      ensures State() == GlassSwitch.ThumbHighlight(old(State()), highlighted)
    {
      if highlighted {
        highlightOpacity := 1.0;
        pressed := true;
      } else {
        highlightOpacity := 0.0;
        pressed := false;
      }
      highlightAnimations := highlightAnimations + 1;
    }
  }

  class LiquidGlassSliderView {
    var component: Option<SliderComponent>
    var bounds: Rect
    var isTracking: bool
    var trackingStartValue: real
    var trackingStartLocation: Point
    var trackBackgroundColor: Option<Color>
    var trackForegroundColor: Option<Color>
    var trackFrame: Rect
    var foregroundFrame: Rect
    const knobView: LiquidGlassKnobView
    var events: seq<SliderEvent>
    var pendingReleases: nat

    function State(): SliderState
      reads this, knobView
    {
      SliderState(component, bounds, isTracking, trackingStartValue, trackingStartLocation, trackBackgroundColor,
                  trackForegroundColor, trackFrame, foregroundFrame, knobView.State(), events, pendingReleases)
    }

    constructor (frame: Rect)
      ensures State() == InitialSlider(frame)
    {
      component, bounds, isTracking := None, Rect(0.0, 0.0, frame.w, frame.h), false;
      trackingStartValue, trackingStartLocation := 0.0, Point(0.0, 0.0);
      trackBackgroundColor, trackForegroundColor, trackFrame, foregroundFrame := None, None, ZeroRect, ZeroRect;
      knobView := new LiquidGlassKnobView(ZeroRect);
      events, pendingReleases := [], 0;
    }

    method HandleTap(location: Point)
      modifies this, knobView
      ensures State() == Tap(old(State()), location)
    {
      if component.None? {
        return;
      }
      var c := component.value;
      var trackWidth := Width(bounds) - c.knobSize;
      var clampedValue := ClampFloat(Quotient(location.x - c.knobSize / 2.0, trackWidth), 0.0, 1.0);
      var newValue := c.minValue + clampedValue * (c.maxValue - c.minValue);
      knobView.AnimateHighlight(true);
      pendingReleases := pendingReleases + 1;
      events := events + [ValueUpdated(newValue)];
    }

    /** The block handleTap schedules for a tenth of a second later. */
    method DelayedRelease()
      requires 0 < pendingReleases
      modifies this, knobView
      ensures State() == Release(old(State()))
    {
      pendingReleases := pendingReleases - 1;
      knobView.AnimateHighlight(false);
    }

    method HandlePan(e: PanEvent)
      modifies this, knobView
      ensures State() == Pan(old(State()), e)
    {
      if component.None? {
        return;
      }
      var c := component.value;
      match e {
        case Began(location) =>
          isTracking := true;
          trackingStartValue := c.value;
          trackingStartLocation := location;
          knobView.AnimateHighlight(true);
          if c.isTrackingUpdated.Some? {
            events := events + [TrackingUpdated(true)];
          }
        case Changed(location) =>
          var trackWidth := Width(bounds) - c.knobSize;
          var deltaX := location.x - trackingStartLocation.x;
          var deltaValue := Product(Quotient(deltaX, trackWidth), c.maxValue - c.minValue);
          var newValue := ClampFloat(Sum(trackingStartValue, deltaValue), c.minValue, c.maxValue);
          events := events + [ValueUpdated(newValue)];
        case Ended =>
          EndTracking(c);
        case Cancelled =>
          EndTracking(c);
        case Possible =>
        case Failed =>
      }
    }

    method EndTracking(c: SliderComponent)
      modifies this, knobView
      ensures State() == old(State()).(isTracking := false, knob := GlassSwitch.ThumbHighlight(old(knobView.State()), false),
                                       events := old(events) + TrackingReport(c, false))
    {
      isTracking := false;
      knobView.AnimateHighlight(false);
      if c.isTrackingUpdated.Some? {
        events := events + [TrackingUpdated(false)];
      }
    }

    /** The view's frame as its parent sets it. */
    method SetBounds(b: Rect)
      modifies this
      ensures State() == old(State()).(bounds := b)
    {
      bounds := b;
    }

    method Update(c: SliderComponent, availableWidth: real) returns (size: Size)
      requires c.maxValue != c.minValue
      modifies this, knobView
      ensures State() == UpdateSlider(old(State()), c, availableWidth)
      ensures size == Size(availableWidth, SliderHeight)
    {
      component := Some(c);
      var height := SliderHeight;
      var trackHeight := TrackHeight;
      size := Size(availableWidth, height);
      trackBackgroundColor := Some(c.trackBackgroundColor);
      trackForegroundColor := Some(c.trackForegroundColor);
      var trackY := (height - trackHeight) / 2.0;
      var trackWidth := size.width - c.knobSize;
      trackFrame := Rect(c.knobSize / 2.0, trackY, trackWidth, trackHeight);
      var normalizedValue := (c.value - c.minValue) / (c.maxValue - c.minValue);
      var foregroundWidth := trackWidth * normalizedValue;
      foregroundFrame := Rect(c.knobSize / 2.0, trackY, foregroundWidth, trackHeight);
      var knobX := c.knobSize / 2.0 + foregroundWidth - c.knobSize / 2.0;
      var knobY := (height - c.knobSize) / 2.0;
      if !isTracking {
        knobView.SetFrame(Rect(knobX, knobY, c.knobSize, c.knobSize));
      }
    }
  }
}

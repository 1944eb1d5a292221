/** The glass surface: its animation presets, the shape-to-corner-radius map,
    the press/release state machine with its one-shot pulses, the blur backdrop
    and the button that feeds touches into it. Animations are modelled by the
    target values written inside their animation blocks. */
module Glass {
  import opened Geometry

  /** A value bundle of scales, durations (seconds) and spring parameters. */
  datatype AnimationConfig = AnimationConfig(
    highlightScale: real,
    pressedScale: real,
    bounceScale: real,
    stretchFactor: real,
    highlightDuration: real,
    bounceDuration: real,
    springDamping: real,
    springInitialVelocity: real)

  const Default := AnimationConfig(0.96, 0.92, 1.04, 0.03, 0.1, 0.4, 0.6, 0.8)
  const Subtle := AnimationConfig(0.98, 0.95, 1.02, 0.02, 0.08, 0.35, 0.7, 0.6)
  const Prominent := AnimationConfig(0.94, 0.88, 1.06, 0.04, 0.12, 0.5, 0.5, 1.0)

  /** The ordering every preset keeps: press shrinks more than a selection
      pulse, a bounce overshoots, the spring is at most critically damped and
      the highlight phase is shorter than the spring phase. */
  predicate Ordered(c: AnimationConfig) {
    && 0.0 < c.pressedScale < c.highlightScale < 1.0 < c.bounceScale
    && 0.0 < c.stretchFactor < 1.0
    && 0.0 < c.springDamping <= 1.0
    && 0.0 < c.highlightDuration < c.bounceDuration
    && 0.0 <= c.springInitialVelocity
  }

  lemma PresetsOrdered()
    ensures Ordered(Default) && Ordered(Subtle) && Ordered(Prominent)
  {
  }

  datatype Shape = Circle | RoundedRect(radius: real) | Capsule

  function CornerRadius(shape: Shape, size: Size): (r: real)
    ensures shape.RoundedRect? ==> r == shape.radius
    ensures !shape.RoundedRect? ==> r == Min(size.width, size.height) / 2.0
    ensures !shape.RoundedRect? ==> r <= size.width / 2.0 && r <= size.height / 2.0
    ensures !shape.RoundedRect? && 0.0 <= size.width && 0.0 <= size.height ==> 0.0 <= r
  {
    match shape
    case Circle => Min(size.width, size.height) / 2.0
    case RoundedRect(radius) => radius
    case Capsule => Min(size.width, size.height) / 2.0
  }

  /** The seven configurable properties a surface exposes. */
  datatype GlassProps = GlassProps(
    shape: Shape,
    animationConfig: AnimationConfig,
    blurRadius: real,
    tintColor: Color,
    enableBlur: bool,
    enableShadow: bool,
    highlightColor: Color)

  const DefaultProps := GlassProps(Circle, Default, 10.0, White(0.3), true, true, White(0.2))

  /** A blur backdrop view; `id` tells one instance from another and `radius`
      is the blur radius written into its filter when it was created. */
  datatype EffectView = EffectView(id: nat, radius: real)

  /** Everything a LiquidGlassView holds. `timeline` is the transform
      animation most recently started; a new animation replaces it. */
  datatype ViewState = ViewState(
    props: GlassProps,
    reduceTransparency: bool,
    effectView: Option<EffectView>,
    nextEffectId: nat,
    isHighlighted: bool,
    touchStartPoint: Option<Point>,
    bounds: Rect,
    cornerRadius: real,
    needsLayout: bool,
    highlightOpacity: real,
    shadowOpacity: real,
    timeline: seq<Step>)

  /** The backdrop invariant: an effect view exists exactly when blur is
      enabled and transparency is not reduced; the shadow follows its flag. */
  predicate Consistent(s: ViewState) {
    && (s.effectView.Some? <==> s.props.enableBlur && !s.reduceTransparency)
    && s.shadowOpacity == ShadowOpacity(s.props.enableShadow)
  }

  function ShadowOpacity(enableShadow: bool): real {
    if enableShadow then 0.15 else 0.0
  }

  /** One axis of the press translation: the source computes
      (c - mid) / extent * stretchFactor and scales it back by extent. */
  function PressOffset(c: real, mid: real, extent: real, stretchFactor: real): (r: real)
    ensures extent != 0.0 ==> r == (c - mid) * stretchFactor
  {
    if extent == 0.0 then 0.0
    else
      var stretch := (c - mid) / extent * stretchFactor;
      assert stretch * extent == (c - mid) * stretchFactor by {
        assert (c - mid) / extent * extent == c - mid;
      }
      stretch * extent
  }

  /** The transform a press targets: uniform `pressedScale`, displaced
      toward the touch point when one is given. */
  function PressTransform(config: AnimationConfig, bounds: Rect, point: Option<Point>): (r: Transform)
    ensures r.scaleX == config.pressedScale && r.scaleY == config.pressedScale
    ensures point.None? ==> r.translateX == 0.0 && r.translateY == 0.0
    ensures point.Some? && Width(bounds) != 0.0 ==>
      r.translateX == (point.value.x - MidX(bounds)) * config.stretchFactor
    ensures point.Some? && Height(bounds) != 0.0 ==>
      r.translateY == (point.value.y - MidY(bounds)) * config.stretchFactor
  {
    match point
    case None => Scale(config.pressedScale)
    case Some(p) =>
      Transform(config.pressedScale, config.pressedScale,
                PressOffset(p.x, MidX(bounds), Width(bounds), config.stretchFactor),
                PressOffset(p.y, MidY(bounds), Height(bounds), config.stretchFactor))
  }

  lemma OffsetBounded(c: real, lo: real, hi: real, sf: real)
    requires lo <= c <= hi && 0.0 <= sf
    ensures Abs(PressOffset(c, (lo + hi) / 2.0, hi - lo, sf)) <= sf * (hi - lo) / 2.0
  {
    if hi - lo != 0.0 {
      var d := c - (lo + hi) / 2.0;
      var m := (hi - lo) / 2.0;
      assert PressOffset(c, (lo + hi) / 2.0, hi - lo, sf) == d * sf;
      ProductNonNegative(m - d, sf);
      ProductNonNegative(m + d, sf);
      assert (m - d) * sf == m * sf - d * sf && (m + d) * sf == m * sf + d * sf;
      assert m * sf == sf * (hi - lo) / 2.0;
    }
  }

  /** For a touch inside the bounds the press displacement is at most
      stretchFactor times half the size on each axis. */
  lemma PressDisplacementBounded(config: AnimationConfig, bounds: Rect, p: Point)
    requires Contains(bounds, p) && 0.0 <= config.stretchFactor
    ensures Abs(PressTransform(config, bounds, Some(p)).translateX) <= config.stretchFactor * Width(bounds) / 2.0
    ensures Abs(PressTransform(config, bounds, Some(p)).translateY) <= config.stretchFactor * Height(bounds) / 2.0
  {
    OffsetBounded(p.x, MinX(bounds), MaxX(bounds), config.stretchFactor);
    assert MidX(bounds) == (MinX(bounds) + MaxX(bounds)) / 2.0;
    assert Width(bounds) == MaxX(bounds) - MinX(bounds);
    OffsetBounded(p.y, MinY(bounds), MaxY(bounds), config.stretchFactor);
    assert MidY(bounds) == (MinY(bounds) + MaxY(bounds)) / 2.0;
    assert Height(bounds) == MaxY(bounds) - MinY(bounds);
  }

  function StretchTransform(config: AnimationConfig, direction: Point): (r: Transform)
    ensures r.translateX == 0.0 && r.translateY == 0.0
    ensures r.scaleX - 1.0 == direction.x * config.stretchFactor
    ensures r.scaleY - 1.0 == direction.y * config.stretchFactor
  {
    Transform(1.0 + direction.x * config.stretchFactor, 1.0 + direction.y * config.stretchFactor, 0.0, 0.0)
  }

  /** A unit-bounded direction never stretches an axis by more than the
      stretch factor, so an ordered config keeps both scales positive. */
  lemma StretchWithinFactor(config: AnimationConfig, direction: Point)
    requires Ordered(config) && Abs(direction.x) <= 1.0 && Abs(direction.y) <= 1.0
    ensures var t := StretchTransform(config, direction);
      1.0 - config.stretchFactor <= t.scaleX <= 1.0 + config.stretchFactor &&
      1.0 - config.stretchFactor <= t.scaleY <= 1.0 + config.stretchFactor && 0.0 < t.scaleX && 0.0 < t.scaleY
  {
    var t := StretchTransform(config, direction);
    ScaleWithinFactor(t.scaleX, direction.x, config.stretchFactor);
    ScaleWithinFactor(t.scaleY, direction.y, config.stretchFactor);
  }

  /** One axis of a stretch: 1 + d * sf for |d| <= 1 stays within 1 +- sf. */
  lemma ScaleWithinFactor(scale: real, d: real, sf: real)
    requires scale - 1.0 == d * sf && Abs(d) <= 1.0 && 0.0 <= sf < 1.0
    ensures 1.0 - sf <= scale <= 1.0 + sf && 0.0 < scale
  {
    if d >= 0.0 {
      assert d * sf <= 1.0 * sf;
    } else {
      assert -d * sf <= 1.0 * sf;
    }
  }

  /** animateHighlight: the press/release state machine. */
  function Highlight(s: ViewState, highlighted: bool, point: Option<Point>): (r: ViewState)
    ensures s.isHighlighted == highlighted ==> r == s
    ensures r.isHighlighted == highlighted
    ensures r == s.(isHighlighted := r.isHighlighted, touchStartPoint := r.touchStartPoint,
                    highlightOpacity := r.highlightOpacity, timeline := r.timeline)
    ensures s.isHighlighted != highlighted && highlighted ==>
      r.touchStartPoint == point && r.highlightOpacity == 1.0 &&
      r.timeline == [To(PressTransform(s.props.animationConfig, s.bounds, point))]
    ensures s.isHighlighted != highlighted && !highlighted ==>
      r.touchStartPoint == None && r.highlightOpacity == 0.0 && r.timeline == [To(Identity)]
  {
    if s.isHighlighted == highlighted then s
    else if highlighted then
      s.(isHighlighted := true, touchStartPoint := point, highlightOpacity := 1.0,
         timeline := [To(PressTransform(s.props.animationConfig, s.bounds, point))])
    else
      s.(isHighlighted := false, touchStartPoint := None, highlightOpacity := 0.0,
         timeline := [To(Identity)])
  }

  /** Pressing twice is pressing once, and so is releasing twice. */
  lemma HighlightIdempotent(s: ViewState, highlighted: bool, p: Option<Point>, q: Option<Point>)
    ensures Highlight(Highlight(s, highlighted, p), highlighted, q) == Highlight(s, highlighted, p)
  {
  }

  /** A press followed by a release leaves the surface idle, with no stored
      touch, the overlay hidden and the transform headed back to identity,
      whatever point was pressed. */
  lemma PressReleaseReturnsToIdle(s: ViewState, p: Option<Point>)
    requires !s.isHighlighted
    ensures var r := Highlight(Highlight(s, true, p), false, None);
      !r.isHighlighted && r.touchStartPoint == None && r.highlightOpacity == 0.0 &&
      r.timeline == [To(Identity)] && r.props == s.props
  {
  }

  function WithCompletion(phases: seq<Step>, completion: bool): seq<Step> {
    if completion then phases + [Completion] else phases
  }

  /** Two-phase pulse: out to `first`, back to identity, then the completion. */
  predicate IsPulse(timeline: seq<Step>, first: Transform, completion: bool) {
    && |timeline| == (if completion then 3 else 2)
    && timeline[0] == To(first) && timeline[1] == To(Identity)
    && (completion ==> timeline[2] == Completion)
  }

  function Bounce(s: ViewState, completion: bool): (r: ViewState)
    ensures IsPulse(r.timeline, Scale(s.props.animationConfig.bounceScale), completion)
    ensures r == s.(timeline := r.timeline)
  {
    s.(timeline := WithCompletion([To(Scale(s.props.animationConfig.bounceScale)), To(Identity)], completion))
  }

  function Stretch(s: ViewState, direction: Point, completion: bool): (r: ViewState)
    ensures IsPulse(r.timeline, StretchTransform(s.props.animationConfig, direction), completion)
    ensures r == s.(timeline := r.timeline)
  {
    s.(timeline := WithCompletion([To(StretchTransform(s.props.animationConfig, direction)), To(Identity)], completion))
  }

  function Selection(s: ViewState, selected: bool): (r: ViewState)
    ensures !selected ==> r == s
    ensures selected ==> IsPulse(r.timeline, Scale(s.props.animationConfig.highlightScale), false)
    ensures r == s.(timeline := r.timeline)
  {
    if selected then s.(timeline := [To(Scale(s.props.animationConfig.highlightScale)), To(Identity)])
    else s
  }

  /** In a pulse the completion is the last step and comes after the return
      to identity; no other step is a completion. */
  lemma CompletionComesLast(timeline: seq<Step>, first: Transform, completion: bool)
    requires IsPulse(timeline, first, completion)
    ensures forall k :: 0 <= k < |timeline| && timeline[k] == Completion ==> k == |timeline| - 1 && k == 2
    ensures completion <==> Completion in timeline
  {
    assert first != Identity || To(first) != Completion;
    assert forall k :: 0 <= k < 2 ==> timeline[k].To?;
  }

  /** updateBlurEffect: create the backdrop when wanted and missing, remove
      and forget it when unwanted; an existing backdrop is kept as it is. */
  function UpdateBlur(s: ViewState): (r: ViewState)
    ensures r.effectView.Some? <==> s.props.enableBlur && !s.reduceTransparency
    ensures s.effectView.Some? && r.effectView.Some? ==> r.effectView == s.effectView
    ensures s.effectView.None? && r.effectView.Some? ==>
      r.effectView.value == EffectView(s.nextEffectId, s.props.blurRadius)
    ensures r.needsLayout
    ensures r == s.(effectView := r.effectView, nextEffectId := r.nextEffectId, needsLayout := true)
  {
    var e :=
      if s.props.enableBlur && !s.reduceTransparency then
        if s.effectView.None? then Some(EffectView(s.nextEffectId, s.props.blurRadius)) else s.effectView
      else None;
    s.(effectView := e, nextEffectId := if s.effectView.None? && e.Some? then s.nextEffectId + 1 else s.nextEffectId,
       needsLayout := true)
  }

  /** Once a backdrop exists a new blur radius does not reach it: the radius
      is written only when the effect view is created. */
  lemma BlurRadiusOnlyAtCreation(s: ViewState, radius: real)
    requires s.effectView.Some? && Consistent(s)
    ensures UpdateBlur(s.(props := s.props.(blurRadius := radius))).effectView == s.effectView
  {
  }

  function WithShape(s: ViewState, v: Shape): ViewState { s.(props := s.props.(shape := v), needsLayout := true) }
  function WithAnimationConfig(s: ViewState, v: AnimationConfig): ViewState { s.(props := s.props.(animationConfig := v)) }
  function WithBlurRadius(s: ViewState, v: real): ViewState { UpdateBlur(s.(props := s.props.(blurRadius := v))) }
  function WithTintColor(s: ViewState, v: Color): ViewState { s.(props := s.props.(tintColor := v)) }
  function WithEnableBlur(s: ViewState, v: bool): ViewState { UpdateBlur(s.(props := s.props.(enableBlur := v))) }
  function WithEnableShadow(s: ViewState, v: bool): ViewState {
    s.(props := s.props.(enableShadow := v), shadowOpacity := ShadowOpacity(v))
  }
  function WithHighlightColor(s: ViewState, v: Color): ViewState { s.(props := s.props.(highlightColor := v)) }

  /** Every property setter keeps the backdrop invariant. */
  lemma SettersKeepConsistent(s: ViewState, shape: Shape, c: AnimationConfig, radius: real, color: Color, flag: bool)
    requires Consistent(s)
    ensures Consistent(WithShape(s, shape)) && Consistent(WithAnimationConfig(s, c))
    ensures Consistent(WithBlurRadius(s, radius)) && Consistent(WithTintColor(s, color))
    ensures Consistent(WithEnableBlur(s, flag)) && Consistent(WithEnableShadow(s, flag))
    ensures Consistent(WithHighlightColor(s, color))
  {
  }

  /** layoutSubviews: the corner radius follows the shape and the new size. */
  function Layout(s: ViewState, bounds: Rect): (r: ViewState)
    ensures r.cornerRadius == CornerRadius(s.props.shape, bounds.Extent()) && !r.needsLayout
    ensures r == s.(bounds := bounds, cornerRadius := r.cornerRadius, needsLayout := false)
  {
    s.(bounds := bounds, cornerRadius := CornerRadius(s.props.shape, bounds.Extent()), needsLayout := false)
  }

  function InitialState(size: Size, reduceTransparency: bool): (r: ViewState)
    ensures Consistent(r) && !r.isHighlighted && r.touchStartPoint == None && r.highlightOpacity == 0.0
  {
    var s := ViewState(DefaultProps, reduceTransparency, None, 0, false, None,
                       Rect(0.0, 0.0, size.width, size.height), 0.0, false, 0.0, 0.0, []);
    UpdateBlur(s).(shadowOpacity := ShadowOpacity(true))
  }

  /** A content container view, identified by reference. */
  class ContentContainer {
    constructor () { }
  }

  class LiquidGlassView {
    var shape: Shape
    var animationConfig: AnimationConfig
    var blurRadius: real
    var tintColor: Color
    var enableBlur: bool
    var enableShadow: bool
    var highlightColor: Color
    const reduceTransparency: bool
    var effectView: Option<EffectView>
    var nextEffectId: nat
    var isHighlighted: bool
    var touchStartPoint: Option<Point>
    var bounds: Rect
    var cornerRadius: real
    var needsLayout: bool
    var highlightOpacity: real
    var shadowOpacity: real
    var timeline: seq<Step>
    const contentView: ContentContainer

    function Props(): GlassProps
      reads this
    {
      GlassProps(shape, animationConfig, blurRadius, tintColor, enableBlur, enableShadow, highlightColor)
    }

    function State(): ViewState
      reads this
    {
      ViewState(Props(), reduceTransparency, effectView, nextEffectId, isHighlighted, touchStartPoint,
                bounds, cornerRadius, needsLayout, highlightOpacity, shadowOpacity, timeline)
    }

    predicate Valid()
      reads this
    {
      Consistent(State())
    }

    /** `init(frame:)` followed by `setupView`. */
    constructor (frame: Rect, reduceTransparency: bool)
      ensures State() == InitialState(frame.Extent(), reduceTransparency) && Valid()
      ensures fresh(contentView)
    {
      this.reduceTransparency := reduceTransparency;
      shape, animationConfig, blurRadius, tintColor := Circle, Default, 10.0, White(0.3);
      enableBlur, enableShadow, highlightColor := true, true, White(0.2);
      effectView, nextEffectId, isHighlighted, touchStartPoint := None, 0, false, None;
      bounds, cornerRadius, needsLayout := Rect(0.0, 0.0, frame.w, frame.h), 0.0, false;
      highlightOpacity, shadowOpacity, timeline := 0.0, 0.0, [];
      contentView := new ContentContainer();
      new;
      UpdateBlurEffect();
      UpdateShadow();
    }

    method UpdateBlurEffect()
      modifies this
      ensures State() == UpdateBlur(old(State()))
    {
      if enableBlur && !reduceTransparency {
        if effectView.None? {
          effectView := Some(EffectView(nextEffectId, blurRadius));
          nextEffectId := nextEffectId + 1;
        }
      } else {
        effectView := None;
      }
      needsLayout := true;
    }

    method UpdateShadow()
      modifies this
      ensures State() == old(State()).(shadowOpacity := ShadowOpacity(enableShadow))
    {
      if enableShadow {
        shadowOpacity := 0.15;
      } else {
        shadowOpacity := 0.0;
      }
    }

    method SetShape(v: Shape)
      requires Valid()
      modifies this
      ensures State() == WithShape(old(State()), v)
      ensures Valid()
    {
      shape := v;
      needsLayout := true;
    }

    method SetAnimationConfig(v: AnimationConfig)
      requires Valid()
      modifies this
      ensures State() == WithAnimationConfig(old(State()), v)
      ensures Valid()
    {
      animationConfig := v;
    }

    method SetBlurRadius(v: real)
      requires Valid()
      modifies this
      ensures State() == WithBlurRadius(old(State()), v)
      ensures Valid()
    {
      blurRadius := v;
      UpdateBlurEffect();
    }

    method SetTintColor(v: Color)
      requires Valid()
      modifies this
      ensures State() == WithTintColor(old(State()), v)
      ensures Valid()
    {
      tintColor := v;
    }

    method SetEnableBlur(v: bool)
      requires Valid()
      modifies this
      ensures State() == WithEnableBlur(old(State()), v)
      ensures Valid()
    {
      enableBlur := v;
      UpdateBlurEffect();
    }

    method SetEnableShadow(v: bool)
      requires Valid()
      modifies this
      ensures State() == WithEnableShadow(old(State()), v)
      ensures Valid()
    {
      enableShadow := v;
      UpdateShadow();
    }

    method SetHighlightColor(v: Color)
      requires Valid()
      modifies this
      ensures State() == WithHighlightColor(old(State()), v)
      ensures Valid()
    {
      highlightColor := v;
    }

    method LayoutSubviews(newBounds: Rect)
      requires Valid()
      modifies this
      ensures State() == Layout(old(State()), newBounds)
      ensures Valid()
    {
      bounds := newBounds;
      cornerRadius := CornerRadius(shape, newBounds.Extent());
      needsLayout := false;
    }

    method AnimateHighlight(highlighted: bool, point: Option<Point>)
      requires Valid()
      modifies this
      ensures State() == Highlight(old(State()), highlighted, point)
      ensures Valid()
    {
      if isHighlighted == highlighted {
        return;
      }
      isHighlighted := highlighted;
      if highlighted {
        touchStartPoint := point;
        AnimatePress(point);
      } else {
        AnimateRelease();
        touchStartPoint := None;
      }
    }

    method AnimatePress(point: Option<Point>)
      requires Valid()
      modifies this
      ensures State() == old(State()).(highlightOpacity := 1.0,
        timeline := [To(PressTransform(animationConfig, bounds, point))])
      ensures Valid()
    {
      highlightOpacity := 1.0;
      timeline := [To(PressTransform(animationConfig, bounds, point))];
    }

    method AnimateRelease()
      requires Valid()
      modifies this
      ensures State() == old(State()).(highlightOpacity := 0.0, timeline := [To(Identity)])
      ensures Valid()
    {
      highlightOpacity := 0.0;
      timeline := [To(Identity)];
    }

    method AnimateBounce(completion: bool)
      requires Valid()
      modifies this
      ensures State() == Bounce(old(State()), completion)
      ensures Valid()
    {
      timeline := WithCompletion([To(Scale(animationConfig.bounceScale)), To(Identity)], completion);
    }

    method AnimateStretch(direction: Point, completion: bool)
      requires Valid()
      modifies this
      ensures State() == Stretch(old(State()), direction, completion)
      ensures Valid()
    {
      timeline := WithCompletion([To(StretchTransform(animationConfig, direction)), To(Identity)], completion);
    }

    method AnimateSelection(selected: bool)
      requires Valid()
      modifies this
      ensures State() == Selection(old(State()), selected)
      ensures Valid()
    {
      if selected {
        timeline := [To(Scale(animationConfig.highlightScale)), To(Identity)];
      }
    }
  }

  /** A control hosting one glass view that it highlights while tracking. */
  class LiquidGlassButton {
    const glassView: LiquidGlassView

    constructor (frame: Rect, reduceTransparency: bool)
      ensures fresh(glassView) && fresh(ContentView())
      ensures glassView.State() == InitialState(frame.Extent(), reduceTransparency) && Valid()
    {
      glassView := new LiquidGlassView(Rect(0.0, 0.0, frame.w, frame.h), reduceTransparency);
    }

    /** The glass view keeps its invariant. */
    predicate Valid() reads this, glassView { glassView.Valid() }

    function Shape(): Shape reads this, glassView { glassView.shape }

    function AnimationConfig(): AnimationConfig reads this, glassView { glassView.animationConfig }

    /** The container the button's content goes into: its glass view's. */
    function ContentView(): ContentContainer {
      glassView.contentView
    }

    method SetShape(v: Shape)
      requires Valid()
      modifies glassView
      ensures glassView.State() == WithShape(old(glassView.State()), v)
      ensures Valid()
    {
      glassView.SetShape(v);
    }

    method SetAnimationConfig(v: AnimationConfig)
      requires Valid()
      modifies glassView
      ensures glassView.State() == WithAnimationConfig(old(glassView.State()), v)
      ensures Valid()
    {
      glassView.SetAnimationConfig(v);
    }

    /** beginTracking: highlight at the touch location. */
    method BeginTracking(location: Point)
      requires Valid()
      modifies glassView
      ensures glassView.State() == Highlight(old(glassView.State()), true, Some(location))
      ensures Valid()
    {
      glassView.AnimateHighlight(true, Some(location));
    }

    /** endTracking: release without a point. */
    method EndTracking()
      requires Valid()
      modifies glassView
      ensures glassView.State() == Highlight(old(glassView.State()), false, None)
      ensures Valid()
    {
      glassView.AnimateHighlight(false, None);
    }

    /** cancelTracking: the same release as endTracking. */
    method CancelTracking()
      requires Valid()
      modifies glassView
      ensures glassView.State() == Highlight(old(glassView.State()), false, None)
      ensures Valid()
    {
      glassView.AnimateHighlight(false, None);
    }
  }

  /** A full touch (begin, then end or cancel) leaves an idle surface idle,
      with the transform headed back to identity. */
  lemma TouchCycleReturnsToIdle(s: ViewState, location: Point)
    requires !s.isHighlighted
    ensures var pressed := Highlight(s, true, Some(location));
      pressed.isHighlighted && pressed.touchStartPoint == Some(location) &&
      var released := Highlight(pressed, false, None);
      !released.isHighlighted && released.touchStartPoint == None && released.timeline == [To(Identity)]
  {
  }
}

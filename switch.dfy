/** The glass switch: a boolean state drawn as a thumb over a coloured
    track, toggled by a tap or dragged by a pan whose release decides the
    new state by the thumb's midpoint. */
module GlassSwitch {
  import opened Geometry

  const SwitchWidth: real := 51.0
  const SwitchHeight: real := 31.0
  const ThumbSize: real := 27.0
  const ThumbPadding: real := 2.0
  /** The thumb's scale while pressed. */
  const PressedScale: real := 0.92

  /** The thumb's leftmost and rightmost resting x. */
  const OffX: real := ThumbPadding
  const OnX: real := SwitchWidth - ThumbSize - ThumbPadding

  /** The default track colours. */
  const TrackOff: Color := FromRgb(0xe0e0e0)
  const TrackOn: Color := FromRgb(0x42d451)

  /** The thumb: its untransformed frame, the opacity of its highlight
      layer, whether its transform target is the pressed scale (the thumb
      takes no other transform than that and identity) and how many
      highlight animations were committed. */
  datatype ThumbState = ThumbState(frame: Rect, highlightOpacity: real, pressed: bool, highlightAnimations: nat) {
    function Target(): Transform {
      if pressed then Scale(PressedScale) else Identity
    }
  }

  /** The thumb's animateHighlight: unlike the glass surface it keeps no
      highlighted flag, so every call commits a new animation. */
  function ThumbHighlight(t: ThumbState, highlighted: bool): (r: ThumbState)
    ensures r.frame == t.frame && r.highlightAnimations == t.highlightAnimations + 1
    ensures highlighted ==> r.highlightOpacity == 1.0 && r.Target() == Scale(PressedScale)
    ensures !highlighted ==> r.highlightOpacity == 0.0 && r.Target() == Identity
  {
    if highlighted then
      t.(highlightOpacity := 1.0, pressed := true, highlightAnimations := t.highlightAnimations + 1)
    else
      t.(highlightOpacity := 0.0, pressed := false, highlightAnimations := t.highlightAnimations + 1)
  }

  /** Repeating a highlight reaches the same targets but animates again. */
  lemma ThumbHighlightUnguarded(t: ThumbState, highlighted: bool)
    ensures var once := ThumbHighlight(t, highlighted);
      var twice := ThumbHighlight(once, highlighted);
      && twice.(highlightAnimations := once.highlightAnimations) == once
      && twice != once
  {
  }

  /** updateThumbPosition's target: at the right end when on, at the left
      end when off, inset by the padding. */
  function ThumbFrame(on: bool): (r: Rect)
    ensures r.y == ThumbPadding && r.w == ThumbSize && r.h == ThumbSize
    ensures on ==> r.x == 22.0 && r.x + r.w == SwitchWidth - ThumbPadding
    ensures !on ==> r.x == 2.0
  {
    Rect(if on then OnX else OffX, ThumbPadding, ThumbSize, ThumbSize)
  }

  /** Both resting frames sit inside the track, and each lies on its own
      side of the midpoint release decision. */
  lemma ThumbFramesInsideTrack(on: bool)
    ensures var f := ThumbFrame(on);
      0.0 <= f.x && f.x + f.w <= SwitchWidth && 0.0 <= f.y && f.y + f.h <= SwitchHeight
    ensures (MidX(ThumbFrame(on)) > SwitchWidth / 2.0) == on
  {
  }

  /** interpolateColor: the progress is clamped to [0, 1], then every channel
      moves linearly from `from` to `to`. */
  function Interpolate(from: Color, to: Color, progress: real): (r: Color)
    ensures progress <= 0.0 ==> r == from
    ensures 1.0 <= progress ==> r == to
  {
    var p := Clamp(progress, 0.0, 1.0);
    Color(Lerp(from.red, to.red, p), Lerp(from.green, to.green, p),
          Lerp(from.blue, to.blue, p), Lerp(from.alpha, to.alpha, p))
  }

  predicate Between(c: Color, from: Color, to: Color) {
    && Min(from.red, to.red) <= c.red <= Max(from.red, to.red)
    && Min(from.green, to.green) <= c.green <= Max(from.green, to.green)
    && Min(from.blue, to.blue) <= c.blue <= Max(from.blue, to.blue)
    && Min(from.alpha, to.alpha) <= c.alpha <= Max(from.alpha, to.alpha)
  }

  /** The interpolation reaches `from` at 0 and `to` at 1, clamps any
      progress outside [0, 1] to the nearer end, and never leaves the span of
      the two colours in any channel. */
  lemma InterpolateProperties(from: Color, to: Color, progress: real)
    ensures Interpolate(from, to, 0.0) == from && Interpolate(from, to, 1.0) == to
    ensures progress <= 0.0 ==> Interpolate(from, to, progress) == from
    ensures 1.0 <= progress ==> Interpolate(from, to, progress) == to
    ensures Between(Interpolate(from, to, progress), from, to)
  {
    var p := Clamp(progress, 0.0, 1.0);
    LerpBetween(from.red, to.red, p);
    LerpBetween(from.green, to.green, p);
    LerpBetween(from.blue, to.blue, p);
    LerpBetween(from.alpha, to.alpha, p);
  }

  /** How far the dragged thumb is along its travel. */
  function Progress(x: real): (r: real)
    ensures OffX <= x <= OnX ==> 0.0 <= r <= 1.0
    ensures x == OffX ==> r == 0.0
    ensures x == OnX ==> r == 1.0
  {
    (x - ThumbPadding) / (SwitchWidth - ThumbSize - 2.0 * ThumbPadding)
  }

  /** One report to the valueUpdated closure. */
  datatype ValueUpdate = ValueUpdate(handler: Handler, isOn: bool)

  /** The states of a pan recognizer as handlePan sees them. */
  datatype PanPhase = Began | Changed | Ended | Cancelled | Possible | Failed

  /** Everything the switch holds. `trackColor` is None until first set;
      `panTranslation` is the pan recognizer's accumulated translation;
      `pendingReleases` counts the delayed un-highlights a tap has scheduled. */
  datatype SwitchState = SwitchState(
    isOn: bool,
    trackOffColor: Color,
    trackOnColor: Color,
    trackColor: Option<Color>,
    trackFrame: Rect,
    thumb: ThumbState,
    isTracking: bool,
    panTranslation: real,
    valueUpdated: Option<Handler>,
    updates: seq<ValueUpdate>,
    pendingReleases: nat)

  function InitialSwitch(): SwitchState {
    SwitchState(false, TrackOff, TrackOn, None, ZeroRect, ThumbState(ZeroRect, 0.0, false, 0), false, 0.0, None, [], 0)
  }

  function RestingColor(s: SwitchState): Color {
    if s.isOn then s.trackOnColor else s.trackOffColor
  }

  /** At rest: the thumb at its resting frame, the track in its state's
      colour. */
  predicate Resting(s: SwitchState) {
    s.thumb.frame == ThumbFrame(s.isOn) && s.trackColor == Some(RestingColor(s))
  }

  /** updateThumbPosition then updateColors. */
  function Settle(s: SwitchState): (r: SwitchState)
    ensures Resting(r) && r.isOn == s.isOn && r.updates == s.updates
    ensures r == s.(thumb := r.thumb, trackColor := r.trackColor) && r.thumb == s.thumb.(frame := r.thumb.frame)
  {
    s.(thumb := s.thumb.(frame := ThumbFrame(s.isOn)), trackColor := Some(RestingColor(s)))
  }

  /** Calls valueUpdated, when set, with the current state. */
  function Report(s: SwitchState): (r: SwitchState)
    ensures s.valueUpdated.Some? ==> r.updates == s.updates + [ValueUpdate(s.valueUpdated.value, s.isOn)]
    ensures s.valueUpdated.None? ==> r == s
    ensures r == s.(updates := r.updates)
  {
    if s.valueUpdated.Some? then s.(updates := s.updates + [ValueUpdate(s.valueUpdated.value, s.isOn)]) else s
  }

  /** The isOn setter, and setOn at either animation setting: only a change
      of value moves the thumb and recolours the track, and neither reports. */
  function WithIsOn(s: SwitchState, value: bool): (r: SwitchState)
    ensures value == s.isOn ==> r == s
    ensures value != s.isOn ==> r.isOn == value && Resting(r)
    ensures r.updates == s.updates && r.isTracking == s.isTracking
    ensures r == s.(isOn := r.isOn, thumb := r.thumb, trackColor := r.trackColor) && r.thumb == s.thumb.(frame := r.thumb.frame)
  {
    if value != s.isOn then Settle(s.(isOn := value)) else s
  }

  /** The track colour setters recolour the track at once. */
  function WithTrackColors(s: SwitchState, off: Color, on: Color): (r: SwitchState)
    ensures r.trackColor == Some(if s.isOn then on else off) && r.isOn == s.isOn
    ensures r == s.(trackOffColor := off, trackOnColor := on, trackColor := r.trackColor)
  {
    var s1 := s.(trackOffColor := off, trackOnColor := on);
    s1.(trackColor := Some(RestingColor(s1)))
  }

  /** setupView and didLoad: the track painted off, then in its state's
      colour; the track and thumb framed; the thumb moved to rest. */
  function Loaded(s: SwitchState): (r: SwitchState)
    ensures Resting(r) && r.trackFrame == Rect(0.0, 0.0, SwitchWidth, SwitchHeight)
    ensures r.isOn == s.isOn && r.updates == s.updates
    ensures r == s.(trackColor := r.trackColor, trackFrame := r.trackFrame, thumb := r.thumb)
    ensures r.thumb == s.thumb.(frame := r.thumb.frame)
  {
    var s1 := s.(trackColor := Some(RestingColor(s)), trackFrame := Rect(0.0, 0.0, SwitchWidth, SwitchHeight),
                 thumb := s.thumb.(frame := Rect(ThumbPadding, ThumbPadding, ThumbSize, ThumbSize)));
    s1.(thumb := s1.thumb.(frame := ThumbFrame(s1.isOn)))
  }

  /** handleTap: flips the state, moves the thumb, recolours, presses the
      thumb, schedules its release and reports the new state once. */
  function Tap(s: SwitchState): (r: SwitchState)
    ensures r.isOn == !s.isOn && Resting(r)
    ensures r.updates == s.updates + (if s.valueUpdated.Some? then [ValueUpdate(s.valueUpdated.value, !s.isOn)] else [])
    ensures r.thumb.highlightOpacity == 1.0 && r.thumb.Target() == Scale(PressedScale)
    ensures r.pendingReleases == s.pendingReleases + 1 && r.isTracking == s.isTracking
    ensures r == s.(isOn := r.isOn, thumb := r.thumb, trackColor := r.trackColor, pendingReleases := r.pendingReleases,
                    updates := r.updates)
  {
    var s1 := Settle(s.(isOn := !s.isOn));
    var s2 := s1.(thumb := ThumbHighlight(s1.thumb, true), pendingReleases := s1.pendingReleases + 1);
    Report(s2)
  }

  /** The delayed block a tap scheduled: the thumb is released. */
  function Release(s: SwitchState): (r: SwitchState)
    requires 0 < s.pendingReleases
    ensures r == s.(thumb := ThumbHighlight(s.thumb, false), pendingReleases := s.pendingReleases - 1)
    ensures r.thumb.highlightOpacity == 0.0 && r.thumb.Target() == Identity
  {
    s.(thumb := ThumbHighlight(s.thumb, false), pendingReleases := s.pendingReleases - 1)
  }

  /** A tap reports once; a second tap restores the state and reports the
      opposite value. */
  lemma TapTwiceRestores(s: SwitchState)
    requires s.valueUpdated.Some?
    ensures var r := Tap(Tap(s));
      var h := s.valueUpdated.value;
      r.isOn == s.isOn && r.updates == s.updates + [ValueUpdate(h, !s.isOn), ValueUpdate(h, s.isOn)]
  {
  }

  /** The x of the thumb's `frame` as UIKit reports it: the left edge of the
      box the transform makes of the untransformed frame, scaled about its
      centre. Unpressed it is the frame's own x; under the pressed scale it
      lies 1.08 points further right for a thumb of its size. */
  function FrameOriginX(f: Rect, pressed: bool): (r: real)
    ensures !pressed ==> r == f.x
    ensures pressed && f.w == ThumbSize ==> r == f.x + 1.08
  {
    if pressed then MidX(f) - PressedScale * f.w / 2.0 else f.x
  }

  /** Writing `frame.origin.x` keeps the transform and the bounds' size and
      moves the centre with the box, so the untransformed frame moves by the
      distance the reported box moves. */
  function WithFrameOriginX(f: Rect, pressed: bool, x: real): (r: Rect)
    ensures FrameOriginX(r, pressed) == x
    ensures r.y == f.y && r.w == f.w && r.h == f.h
  {
    f.(x := f.x + (x - FrameOriginX(f, pressed)))
  }

  /** Writing back the origin just read leaves the frame as it was. */
  lemma FrameOriginWriteBack(f: Rect, pressed: bool)
    ensures WithFrameOriginX(f, pressed, FrameOriginX(f, pressed)) == f
  {
  }

  /** The thumb's frame after a change of the pan by `dx`: its reported
      origin moves by `dx`, clamped to the travel. */
  function DragFrame(f: Rect, pressed: bool, dx: real): (r: Rect)
    ensures FrameOriginX(r, pressed) == Clamp(FrameOriginX(f, pressed) + dx, OffX, OnX)
    ensures r == f.(x := r.x)
  {
    WithFrameOriginX(f, pressed, Clamp(FrameOriginX(f, pressed) + dx, OffX, OnX))
  }

  /** The thumb after a change of the pan: only its frame moves, and its
      reported origin moves by `dx`, clamped to the travel. */
  function DragThumb(t: ThumbState, dx: real): (r: ThumbState)
    ensures r.(frame := t.frame) == t
    ensures FrameOriginX(r.frame, r.pressed) == Clamp(FrameOriginX(t.frame, t.pressed) + dx, OffX, OnX)
    ensures r.frame == t.frame.(x := r.frame.x)
  {
    t.(frame := DragFrame(t.frame, t.pressed, dx))
  }

  /** The pan recognizer reporting more movement: its translation since the
      last change grows by dx, and the switch is otherwise untouched. */
  function Moved(s: SwitchState, dx: real): (r: SwitchState)
    ensures r.panTranslation - s.panTranslation == dx
    ensures r.(panTranslation := s.panTranslation) == s
  {
    s.(panTranslation := s.panTranslation + dx)
  }

  /** Movements between two changes add up: the change sees their sum. */
  lemma MovesAccumulate(s: SwitchState, a: real, b: real)
    ensures Moved(Moved(s, a), b) == Moved(s, a + b)
    ensures Pan(Moved(Moved(s, a), b), Changed) == Pan(Moved(s, a + b), Changed)
  {
  }

  /** handlePan. A new gesture starts with the recognizer's translation at
      zero, and its beginning presses the thumb. A change moves the thumb's reported frame origin by the
      translation since the last change, clamped to its travel, consumes that
      translation and colours the track by the progress of that origin; the
      end of a pan decides the state by whether the thumb's centre is past the
      track's middle and reports only a change. */
  function Pan(s: SwitchState, phase: PanPhase): (r: SwitchState)
    ensures phase == Began ==>
      r == s.(isTracking := true, thumb := ThumbHighlight(s.thumb, true), panTranslation := 0.0)
    ensures phase == Changed ==>
      var x := Clamp(FrameOriginX(s.thumb.frame, s.thumb.pressed) + s.panTranslation, OffX, OnX);
      && r.thumb == DragThumb(s.thumb, s.panTranslation) && r.panTranslation == 0.0
      && r.trackColor == Some(Interpolate(s.trackOffColor, s.trackOnColor, Progress(x)))
      && 0.0 <= Progress(x) <= 1.0
      && r.isOn == s.isOn && r.updates == s.updates && r.isTracking == s.isTracking
    ensures phase == Ended || phase == Cancelled ==>
      && r.isOn == (MidX(s.thumb.frame) > SwitchWidth / 2.0) && Resting(r) && !r.isTracking
      && r.updates == (if r.isOn != s.isOn && s.valueUpdated.Some? then s.updates + [ValueUpdate(s.valueUpdated.value, r.isOn)] else s.updates)
      && r.thumb.highlightOpacity == 0.0 && r.thumb.Target() == Identity
    ensures phase == Possible || phase == Failed ==> r == s
  {
    match phase
    case Began => s.(isTracking := true, thumb := ThumbHighlight(s.thumb, true), panTranslation := 0.0)
    case Changed =>
      var newX := Clamp(FrameOriginX(s.thumb.frame, s.thumb.pressed) + s.panTranslation, OffX, OnX);
      s.(thumb := DragThumb(s.thumb, s.panTranslation), panTranslation := 0.0,
         trackColor := Some(Interpolate(s.trackOffColor, s.trackOnColor, Progress(newX))))
    case Ended => PanEnd(s)
    case Cancelled => PanEnd(s)
    case Possible => s
    case Failed => s
  }

  function PanEnd(s: SwitchState): (r: SwitchState)
    ensures r.isOn == (MidX(s.thumb.frame) > SwitchWidth / 2.0) && Resting(r) && !r.isTracking
    ensures r.updates == s.updates + (if r.isOn != s.isOn && s.valueUpdated.Some? then [ValueUpdate(s.valueUpdated.value, r.isOn)] else [])
    ensures r == s.(isOn := r.isOn, isTracking := false, thumb := r.thumb, trackColor := r.trackColor, updates := r.updates)
    ensures r.thumb == ThumbHighlight(s.thumb, false).(frame := ThumbFrame(r.isOn))
  {
    var s1 := s.(isTracking := false, thumb := ThumbHighlight(s.thumb, false));
    var newIsOn := MidX(s1.thumb.frame) > SwitchWidth / 2.0;
    var s2 := if newIsOn != s1.isOn then Report(s1.(isOn := newIsOn)) else s1;
    Settle(s2)
  }

  /** Movement reported before a pan begins does not carry into it: the
      first change sees only what moved since the beginning. */
  lemma BeganForgetsMovement(s: SwitchState, dx: real)
    ensures Pan(Moved(s, dx), Began) == Pan(s, Began)
    ensures Pan(Pan(Moved(s, dx), Began), Changed) == Pan(Pan(s, Began), Changed)
  {
  }

  /** The drag is incremental: a second change with no new movement leaves
      the thumb and track where the first put them. */
  lemma DragIsIncremental(s: SwitchState)
    ensures Pan(Pan(s, Changed), Changed) == Pan(s, Changed)
  {
  }

  /** With the thumb at its size, a release turns the switch on exactly when
      the progress the drag showed is past one half for an unpressed thumb,
      and past 0.554 for a thumb under the pressed scale, whose reported
      origin sits 1.08 points right of its untransformed one. */
  lemma ReleaseFollowsProgress(s: SwitchState, phase: PanPhase)
    requires s.thumb.frame.w == ThumbSize && (phase == Ended || phase == Cancelled)
    ensures var dragged := Pan(s, Changed);
      var x := FrameOriginX(dragged.thumb.frame, dragged.thumb.pressed);
      && (!s.thumb.pressed ==> (Pan(dragged, phase).isOn <==> Progress(x) > 0.5))
      && (s.thumb.pressed ==> (Pan(dragged, phase).isOn <==> Progress(x) > 0.554))
  {
    var dragged := Pan(s, Changed);
    var f := dragged.thumb.frame;
    var x := FrameOriginX(f, dragged.thumb.pressed);
    assert f.w == ThumbSize;
    assert Pan(dragged, phase).isOn == (MidX(f) > SwitchWidth / 2.0) by {
      assert Pan(dragged, phase) == PanEnd(dragged);
    }
    assert Progress(x) * 20.0 == x - 2.0;
    if s.thumb.pressed {
      assert MidX(f) == x + 12.42;
    } else {
      assert MidX(f) == x + 13.5;
    }
  }

  /** A drag from rest in the off position under the pressed scale: without
      movement the thumb already shows progress 0.054; after −5 and then
      +10.5 points its centre stops at 24.92, short of the middle at 25.5,
      where the release decides. The same moves on an unpressed thumb end
      with the centre at 26, past the middle. */
  lemma PressedDragLagsBehind()
    ensures var rest := ThumbFrame(false);
      && Progress(FrameOriginX(DragFrame(rest, true, 0.0), true)) == 0.054
      && MidX(DragFrame(DragFrame(rest, true, -5.0), true, 10.5)) == 24.92 < SwitchWidth / 2.0
    ensures var rest := ThumbFrame(false);
      MidX(DragFrame(DragFrame(rest, false, -5.0), false, 10.5)) == 26.0 > SwitchWidth / 2.0
  {
    var rest := ThumbFrame(false);
    assert Progress(FrameOriginX(DragFrame(rest, true, 0.0), true)) == 0.054 by {
      assert FrameOriginX(rest, true) == 3.08;
      assert Clamp(3.08 + 0.0, OffX, OnX) == 3.08;
      assert Progress(3.08) == 1.08 / 20.0 == 0.054;
    }
    assert MidX(DragFrame(DragFrame(rest, true, -5.0), true, 10.5)) == 24.92 by {
      var first := DragFrame(rest, true, -5.0);
      assert FrameOriginX(rest, true) == 3.08;
      assert first == rest.(x := 0.92);
      assert FrameOriginX(first, true) == 2.0;
      assert DragFrame(first, true, 10.5) == rest.(x := 11.42);
    }
    assert MidX(DragFrame(DragFrame(rest, false, -5.0), false, 10.5)) == 26.0 by {
      assert DragFrame(rest, false, -5.0) == rest;
      assert DragFrame(rest, false, 10.5) == rest.(x := 12.5);
    }
  }

  /** A pan released without moving the thumb off its resting frame keeps the
      state and reports nothing. */
  lemma ReleaseAtRestKeepsState(s: SwitchState, phase: PanPhase)
    requires Resting(s) && (phase == Ended || phase == Cancelled)
    ensures Pan(s, phase).isOn == s.isOn && Pan(s, phase).updates == s.updates
  {
    ThumbFramesInsideTrack(s.isOn);
  }

  /** Every operation other than a drag's change leaves a resting switch at
      rest; the end of a pan returns any switch to rest. */
  lemma RestingPreserved(s: SwitchState, value: bool, off: Color, on: Color, phase: PanPhase)
    requires Resting(s) && phase != Changed
    ensures Resting(WithIsOn(s, value)) && Resting(WithTrackColors(s, off, on)) && Resting(Tap(s))
    ensures Resting(Pan(s, phase))
    ensures 0 < s.pendingReleases ==> Resting(Release(s))
  {
  }

  /** calculateSizeThatFits ignores what it is offered. */
  function SizeThatFits(constrainedSize: Size): (r: Size)
    ensures r == Size(SwitchWidth, SwitchHeight)
  {
    Size(SwitchWidth, SwitchHeight)
  }

  class LiquidGlassThumbView {
    var frame: Rect
    var highlightOpacity: real
    /** Whether `transform` is the pressed scale rather than identity. */
    var pressed: bool
    var highlightAnimations: nat

    function State(): ThumbState
      reads this
    {
      ThumbState(frame, highlightOpacity, pressed, highlightAnimations)
    }

    constructor (frame: Rect)
      ensures State() == ThumbState(frame, 0.0, false, 0)
    {
      this.frame, highlightOpacity, pressed, highlightAnimations := frame, 0.0, false, 0;
    }

    method SetFrame(f: Rect)
      modifies this
      ensures State() == old(State()).(frame := f)
    {
      frame := f;
    }

    method AnimateHighlight(highlighted: bool)
      modifies this
      ensures State() == ThumbHighlight(old(State()), highlighted)
    {
      if highlighted {
        highlightOpacity := 1.0;
        pressed := true;
      } else {
        highlightOpacity := 0.0;
        pressed := false;
      }
      highlightAnimations := highlightAnimations + 1;
    }
  }

  class LiquidGlassSwitchNode {
    var valueUpdated: Option<Handler>
    var trackOffColor: Color
    var trackOnColor: Color
    var isOn: bool
    var trackColor: Option<Color>
    var trackFrame: Rect
    const thumbView: LiquidGlassThumbView
    var isTracking: bool
    var panTranslation: real
    var updates: seq<ValueUpdate>
    var pendingReleases: nat

    function State(): SwitchState
      reads this, thumbView
    {
      SwitchState(isOn, trackOffColor, trackOnColor, trackColor, trackFrame, thumbView.State(), isTracking,
                  panTranslation, valueUpdated, updates, pendingReleases)
    }

    constructor ()
      ensures State() == InitialSwitch()
    {
      valueUpdated, trackOffColor, trackOnColor := None, TrackOff, TrackOn;
      isOn, trackColor, trackFrame := false, None, ZeroRect;
      thumbView := new LiquidGlassThumbView(ZeroRect);
      isTracking, panTranslation, updates, pendingReleases := false, 0.0, [], 0;
    }

    method UpdateThumbPosition(animated: bool)
      modifies thumbView
      ensures State() == old(State()).(thumb := old(State()).thumb.(frame := ThumbFrame(isOn)))
    {
      var thumbX: real;
      if isOn {
        thumbX := SwitchWidth - ThumbSize - ThumbPadding;
      } else {
        thumbX := ThumbPadding;
      }
      thumbView.SetFrame(Rect(thumbX, ThumbPadding, ThumbSize, ThumbSize));
    }

    method UpdateColors()
      modifies this
      ensures State() == old(State()).(trackColor := Some(RestingColor(old(State()))))
    {
      trackColor := Some(if isOn then trackOnColor else trackOffColor);
    }

    method SetIsOn(value: bool)
      modifies this, thumbView
      ensures State() == WithIsOn(old(State()), value)
    {
      if value != isOn {
        isOn := value;
        UpdateThumbPosition(false);
        UpdateColors();
      }
    }

    method SetOn(value: bool, animated: bool)
      modifies this, thumbView
      ensures State() == WithIsOn(old(State()), value)
    {
      if value != isOn {
        isOn := value;
        UpdateThumbPosition(animated);
        UpdateColors();
      }
    }

    method SetTrackOffColor(c: Color)
      modifies this
      ensures State() == WithTrackColors(old(State()), c, old(trackOnColor))
    {
      trackOffColor := c;
      UpdateColors();
    }

    method SetTrackOnColor(c: Color)
      modifies this
      ensures State() == WithTrackColors(old(State()), old(trackOffColor), c)
    {
      trackOnColor := c;
      UpdateColors();
    }

    method SetValueUpdated(h: Option<Handler>)
      modifies this
      ensures State() == old(State()).(valueUpdated := h)
    {
      valueUpdated := h;
    }

    /** setupView followed by didLoad. */
    method DidLoad()
      modifies this, thumbView
      ensures State() == Loaded(old(State()))
    {
      trackColor := Some(trackOffColor);
      UpdateColors();
      trackFrame := Rect(0.0, 0.0, SwitchWidth, SwitchHeight);
      thumbView.SetFrame(Rect(ThumbPadding, ThumbPadding, ThumbSize, ThumbSize));
      UpdateThumbPosition(false);
    }

    method HandleTap()
      modifies this, thumbView
      ensures State() == Tap(old(State()))
    {
      isOn := !isOn;
      UpdateThumbPosition(true);
      UpdateColors();
      thumbView.AnimateHighlight(true);
      pendingReleases := pendingReleases + 1;
      if valueUpdated.Some? {
        updates := updates + [ValueUpdate(valueUpdated.value, isOn)];
      }
    }

    /** The block handleTap schedules for a tenth of a second later. */
    method DelayedRelease()
      requires 0 < pendingReleases
      modifies this, thumbView
      ensures State() == Release(old(State()))
    {
      pendingReleases := pendingReleases - 1;
      thumbView.AnimateHighlight(false);
    }

    /** The pan recognizer accumulating movement between events. */
    method PanMoved(dx: real)
      modifies this
      ensures State() == Moved(old(State()), dx)
    {
      panTranslation := panTranslation + dx;
    }

    /** The `.changed` case of handlePan. */
    method PanChanged()
      modifies this, thumbView
      ensures State() == Pan(old(State()), Changed)
    {
      var currentX := FrameOriginX(thumbView.frame, thumbView.pressed);
      var newX := currentX + panTranslation;
      newX := Max(ThumbPadding, Min(SwitchWidth - ThumbSize - ThumbPadding, newX));
      thumbView.SetFrame(WithFrameOriginX(thumbView.frame, thumbView.pressed, newX));
      panTranslation := 0.0;
      var progress := (newX - ThumbPadding) / (SwitchWidth - ThumbSize - 2.0 * ThumbPadding);
      trackColor := Some(Interpolate(trackOffColor, trackOnColor, progress));
    }

    method HandlePan(phase: PanPhase)
      modifies this, thumbView
      ensures State() == Pan(old(State()), phase)
    {
      match phase {
        case Began =>
          isTracking := true;
          panTranslation := 0.0;
          thumbView.AnimateHighlight(true);
        case Changed =>
          PanChanged();
        case Ended =>
          EndPan();
        case Cancelled =>
          EndPan();
        case Possible =>
        case Failed =>
      }
    }

    method EndPan()
      modifies this, thumbView
      ensures State() == PanEnd(old(State()))
    {
      isTracking := false;
      thumbView.AnimateHighlight(false);
      var thumbCenterX := MidX(thumbView.frame);
      var newIsOn := thumbCenterX > SwitchWidth / 2.0;
      if newIsOn != isOn {
        isOn := newIsOn;
        if valueUpdated.Some? {
          updates := updates + [ValueUpdate(valueUpdated.value, isOn)];
        }
      }
      UpdateThumbPosition(true);
      UpdateColors();
    }
  }
}

/** The shared glass lens of the tab bar: where it sits over a tab, the
    bridge frame it stretches through when it moves between two tabs, and its
    own press, selection and bounce pulses. */
module TabLens {
  import opened Geometry

  const LensHeight: real := 36.0
  const LensCornerRadius: real := 18.0
  const LensPadding: real := 16.0

  /** The lens over a tab: the tab's content width (or, without one, the
      tab's own width) widened by the padding on both sides, centred on the
      tab, one point below the top of the bar. */
  function LensFrame(tabFrame: Rect, contentWidth: Option<real>): (r: Rect)
    ensures r.w == contentWidth.GetOr(Width(tabFrame)) + 2.0 * LensPadding
    ensures MidX(r) == MidX(tabFrame)
    ensures r.y == 1.0 && r.h == LensHeight
  {
    var width := contentWidth.GetOr(Width(tabFrame)) + LensPadding * 2.0;
    Rect(MidX(tabFrame) - width / 2.0, 1.0, width, LensHeight)
  }

  /** The first keyframe of a move: a frame centred halfway between the two
      tabs, wide enough to span from the old frame to the new one, at the
      target's top and slightly flattened. */
  function BridgeFrame(from: Rect, target: Rect): (r: Rect)
    ensures MidX(r) == (MidX(from) + MidX(target)) / 2.0
    ensures r.w == Abs(MidX(target) - MidX(from)) + Max(Width(from), Width(target))
    ensures r.y == target.y && r.h == Height(target) * 0.92
  {
    var midX := (MidX(from) + MidX(target)) / 2.0;
    var stretchWidth := Abs(MidX(target) - MidX(from)) + Max(Width(from), Width(target));
    Rect(midX - stretchWidth / 2.0, target.y, stretchWidth, Height(target) * 0.92)
  }

  /** The bridge covers both frames horizontally, so the lens never leaves
      the span between its old and new positions uncovered. */
  lemma BridgeCoversBoth(from: Rect, target: Rect)
    requires 0.0 <= from.w && 0.0 <= target.w
    ensures var b := BridgeFrame(from, target);
      b.x <= from.x && b.x <= target.x &&
      from.x + from.w <= b.x + b.w && target.x + target.w <= b.x + b.w
  {
    var b := BridgeFrame(from, target);
    var a, c := MidX(from), MidX(target);
    var m := Max(from.w, target.w);
    assert b.w == Abs(c - a) + m;
    assert b.x == (a + c) / 2.0 - b.w / 2.0;
    if a <= c {
      assert b.x == a - m / 2.0;
      assert b.x + b.w == c + m / 2.0;
    } else {
      assert b.x == c - m / 2.0;
      assert b.x + b.w == a + m / 2.0;
    }
  }

  /** A keyframe of the move: a frame with the corner radius it reaches. */
  datatype LensKeyframe = LensKeyframe(frame: Rect, cornerRadius: real)

  /** Everything the lens holds. `keyframes` are those of the move most
      recently started, `gradientRotation` the peak angle (in multiples of
      pi) of the iridescent layer's last swing, and `pendingSettles` counts
      moves whose completion, the spring back to identity, has not yet run. */
  datatype LensState = LensState(
    frame: Rect,
    cornerRadius: real,
    alpha: real,
    isHighlighted: bool,
    highlightOpacity: real,
    timeline: seq<Step>,
    keyframes: seq<LensKeyframe>,
    gradientRotation: Option<real>,
    pendingSettles: nat)

  /** The swing direction: a sixth of a turn toward larger indices, and the
      other way otherwise (including a move onto the same index). */
  function RotationTowards(fromIndex: int, toIndex: int): (r: real)
    ensures toIndex > fromIndex ==> r == 1.0 / 6.0
    ensures toIndex <= fromIndex ==> r == -1.0 / 6.0
  {
    if toIndex > fromIndex then 1.0 / 6.0 else -1.0 / 6.0
  }

  /** animateToFrame. */
  function MoveTo(s: LensState, target: Rect, fromIndex: int, toIndex: int, animated: bool): (r: LensState)
    ensures r.frame == target
    ensures !animated ==> r == s.(frame := target)
    ensures animated ==>
      && r.keyframes == [LensKeyframe(BridgeFrame(s.frame, target), LensCornerRadius * 0.85),
                         LensKeyframe(target, LensCornerRadius)]
      && r.cornerRadius == LensCornerRadius
      && r.gradientRotation == Some(RotationTowards(fromIndex, toIndex))
      && r.pendingSettles == s.pendingSettles + 1
      && r == s.(frame := r.frame, cornerRadius := r.cornerRadius, keyframes := r.keyframes,
                 gradientRotation := r.gradientRotation, pendingSettles := r.pendingSettles)
  {
    if animated then
      s.(frame := target, cornerRadius := LensCornerRadius,
         keyframes := [LensKeyframe(BridgeFrame(s.frame, target), LensCornerRadius * 0.85),
                       LensKeyframe(target, LensCornerRadius)],
         gradientRotation := Some(RotationTowards(fromIndex, toIndex)),
         pendingSettles := s.pendingSettles + 1)
    else
      s.(frame := target)
  }

  /** A move's two keyframes end exactly at the target with the resting
      radius, after a narrower-cornered bridge. */
  lemma MoveEndsAtTarget(s: LensState, target: Rect, fromIndex: int, toIndex: int)
    ensures var r := MoveTo(s, target, fromIndex, toIndex, true);
      |r.keyframes| == 2 && r.keyframes[|r.keyframes| - 1] == LensKeyframe(target, LensCornerRadius) &&
      r.keyframes[0].cornerRadius < r.keyframes[1].cornerRadius && r.keyframes[0].frame.y == target.y
  {
  }

  /** The completion of a move: the spring back to the identity transform. */
  function Settle(s: LensState): (r: LensState)
    requires 0 < s.pendingSettles
    ensures r.timeline == [To(Identity)] && r.pendingSettles == s.pendingSettles - 1
    ensures r == s.(timeline := r.timeline, pendingSettles := r.pendingSettles)
  {
    s.(timeline := [To(Identity)], pendingSettles := s.pendingSettles - 1)
  }

  /** The pressed lens: shrunk to 94% and nudged one point down. */
  const PressedLens := Transform(0.94, 0.94, 0.0, 1.0)

  /** animateHighlight, guarded like the glass view's. */
  function Highlight(s: LensState, highlighted: bool): (r: LensState)
    ensures s.isHighlighted == highlighted ==> r == s
    ensures r.isHighlighted == highlighted
    ensures r == s.(isHighlighted := r.isHighlighted, highlightOpacity := r.highlightOpacity, timeline := r.timeline)
    ensures s.isHighlighted != highlighted && highlighted ==>
      r.highlightOpacity == 1.0 && r.timeline == [To(PressedLens)]
    ensures s.isHighlighted != highlighted && !highlighted ==>
      r.highlightOpacity == 0.0 && r.timeline == [To(Identity)]
  {
    if s.isHighlighted == highlighted then s
    else if highlighted then s.(isHighlighted := true, highlightOpacity := 1.0, timeline := [To(PressedLens)])
    else s.(isHighlighted := false, highlightOpacity := 0.0, timeline := [To(Identity)])
  }

  lemma HighlightIdempotent(s: LensState, highlighted: bool)
    ensures Highlight(Highlight(s, highlighted), highlighted) == Highlight(s, highlighted)
  {
  }

  /** animateSelection: a dip to 96% and back. */
  function Selection(s: LensState): (r: LensState)
    ensures r.timeline == [To(Scale(0.96)), To(Identity)]
    ensures r == s.(timeline := r.timeline)
  {
    s.(timeline := [To(Scale(0.96)), To(Identity)])
  }

  /** animateBounce: a swell to 108% and back. */
  function Bounce(s: LensState): (r: LensState)
    ensures r.timeline == [To(Scale(1.08)), To(Identity)]
    ensures r == s.(timeline := r.timeline)
  {
    s.(timeline := [To(Scale(1.08)), To(Identity)])
  }

  /** Both pulses end at identity and differ only in which way they go. */
  lemma PulsesReturnToIdentity(s: LensState)
    ensures Selection(s).timeline[1] == To(Identity) && Bounce(s).timeline[1] == To(Identity)
    ensures Selection(s).timeline[0].target.scaleX < 1.0 < Bounce(s).timeline[0].target.scaleX
  {
  }

  class LiquidGlassLensView {
    var frame: Rect
    var cornerRadius: real
    var alpha: real
    var isHighlighted: bool
    var highlightOpacity: real
    var timeline: seq<Step>
    var keyframes: seq<LensKeyframe>
    var gradientRotation: Option<real>
    var pendingSettles: nat

    function State(): LensState
      reads this
    {
      LensState(frame, cornerRadius, alpha, isHighlighted, highlightOpacity, timeline, keyframes,
                gradientRotation, pendingSettles)
    }

    constructor (frame: Rect)
      ensures State() == LensState(frame, LensCornerRadius, 1.0, false, 0.0, [], [], None, 0)
    {
      this.frame, cornerRadius, alpha := frame, LensCornerRadius, 1.0;
      isHighlighted, highlightOpacity, timeline := false, 0.0, [];
      keyframes, gradientRotation, pendingSettles := [], None, 0;
    }

    method SetFrame(f: Rect)
      modifies this
      ensures State() == old(State()).(frame := f)
    {
      frame := f;
    }

    method SetAlpha(a: real)
      modifies this
      ensures State() == old(State()).(alpha := a)
    {
      alpha := a;
    }

    method AnimateToFrame(target: Rect, fromIndex: int, toIndex: int, animated: bool)
      modifies this
      ensures State() == MoveTo(old(State()), target, fromIndex, toIndex, animated)
    {
      if animated {
        var fromFrame := frame;
        keyframes := [LensKeyframe(BridgeFrame(fromFrame, target), LensCornerRadius * 0.85),
                      LensKeyframe(target, LensCornerRadius)];
        frame := target;
        cornerRadius := LensCornerRadius;
        pendingSettles := pendingSettles + 1;
        gradientRotation := Some(if toIndex > fromIndex then 1.0 / 6.0 else -1.0 / 6.0);
      } else {
        frame := target;
      }
    }

    /** The keyframe animation's completion block. */
    method FinishMove()
      requires 0 < pendingSettles
      modifies this
      ensures State() == Settle(old(State()))
    {
      pendingSettles := pendingSettles - 1;
      timeline := [To(Identity)];
    }

    method AnimateHighlight(highlighted: bool)
      modifies this
      ensures State() == Highlight(old(State()), highlighted)
    {
      if isHighlighted == highlighted {
        return;
      }
      isHighlighted := highlighted;
      if highlighted {
        highlightOpacity := 1.0;
        timeline := [To(PressedLens)];
      } else {
        highlightOpacity := 0.0;
        timeline := [To(Identity)];
      }
    }

    method AnimateSelection()
      modifies this
      ensures State() == Selection(old(State()))
    {
      timeline := [To(Scale(0.96)), To(Identity)];
    }

    method AnimateBounce()
      modifies this
      ensures State() == Bounce(old(State()))
    {
      timeline := [To(Scale(1.08)), To(Identity)];
    }
  }
}

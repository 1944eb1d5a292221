# Liquid glass controls, modelled in Dafny

This project models the "liquid glass" controls of a mobile messaging client
and proves properties of the model. The controls are:

- a translucent glass surface (`LiquidGlassView`) and the button built on it;
- the display-node wrappers around both;
- the tab bar's shared selection lens and the tab bar layout that drives it;
- a glass switch;
- a glass slider.

Each control is a small state machine over rectangles, colours and a few flags.

An animation is modelled by the target values written inside its animation
blocks: a transform, an opacity, a frame or a corner radius. Its curve,
duration and spring are not modelled. A transform animation is a timeline
(`seq<Step>`): the transform targets in phase order, followed by a
`Completion` step when a completion closure is passed. Starting a new
animation replaces the timeline, so the last write wins. `CGFloat` is
modelled as `real`.

| file | module | models |
|---|---|---|
| geometry.dfy | `Geometry` | rectangles, `min`/`max`/`floor`/`ceil` as the source uses them, transforms, colours |
| glass_view.dfy | `Glass` | animation presets, shape radius, `LiquidGlassView` (press/release state machine, pulses, blur backdrop), `LiquidGlassButton` |
| glass_node.dfy | `GlassNodes` | `LiquidGlassNode`, `LiquidGlassButtonNode`: buffered properties, load, forwarding |
| tab_lens.dfy | `TabLens` | the lens frame, the bridge keyframe of a move, `LiquidGlassLensView` |
| tab_bar.dfy | `TabBar` | tab image size arithmetic, the evenly spaced layout and its frame table, badges, tap resolution, `TabBarNode` |
| switch.dfy | `GlassSwitch` | the thumb, colour interpolation, tap and pan handling, `LiquidGlassSwitchNode` |
| slider.dfy | `GlassSlider` | the tap and pan value maps, the layout, `LiquidGlassSliderView` |

Each class that the source mutates is a Dafny `class` with the same fields
and a `State()` function. Each method's contract gives the new state as a
specification function of the old one (`ensures State() == Tap(old(State()))`).
The properties are then proved about those functions as lemmas.

Two places where the code does not do what the surrounding code leads one
to expect, and where the model follows the code as written:

- The glass view and the tab lens guard their highlight with an
  `isHighlighted` flag, so a repeated call does nothing
  (submodules/Display/Source/LiquidGlass/LiquidGlassView.swift:265,
  submodules/TabBarUI/Sources/TabBarNode.swift:245). The switch thumb and the
  slider knob keep no such flag, so each call commits a new animation
  (`GlassSwitch.ThumbHighlightUnguarded`).
- The tab lens lookups read the frame table by tab index
  (submodules/TabBarUI/Sources/TabBarNode.swift:995, :1016), but the layout
  loop writes it by position among the visible tabs
  (submodules/TabBarUI/Sources/TabBarNode.swift:960). While the calls tab is
  hidden, a transparent lens over the selected third tab is therefore placed
  over the fourth tab (`TabBar.HiddenCallsTabShiftsLens`).

Other facts the proofs bring out:

- The lens's first appearance is not tied to the first layout. Every layout that finds the lens still transparent places it over the selected tab and fades it in; a visible lens is never moved by layout (`TabBar.LayoutLeavesVisibleLens`).
- The glass node writes its blur radius after the view has created its
  backdrop. The radius is copied into the blur filter only when the backdrop
  is created, so a loaded node's backdrop always has radius 10
  (`GlassNodes.LoadedBackdropKeepsDefaultRadius`).
- On a slider whose track has zero width, the divisions give infinities, and
  Swift's `min`/`max` turn them into the range ends. A pan then jumps to the
  maximum, or to the minimum if it moved left. A tap at or right of the knob
  centre gives the maximum (`GlassSlider.TapFraction`, `GlassSlider.PanValue`).
- A switch pan reads and writes `frame.origin.x` while the thumb is under
  its 0.92 pressed scale, so the reported origin is 1.08 points right of the
  untransformed one. A pressed thumb at rest already shows progress 0.054,
  and after moves of −5 and then +10.5 points its centre is at 24.92. That is
  short of the middle at 25.5, so the release leaves the switch off. Without
  the scale the same moves would end at 26 and turn it on
  (`GlassSwitch.PressedDragLagsBehind`, `GlassSwitch.ReleaseFollowsProgress`).

## Model

| member | source | states |
|---|---|---|
| Geometry.Clamp | submodules/SwitchNode/Sources/LiquidGlassSwitchNode.swift:238 | for lo <= hi, `max(lo, min(hi, v))` stays in [lo, hi]; it returns v inside the range, lo below it and hi above it |
| Geometry.Floor | submodules/TabBarUI/Sources/TabBarNode.swift:31 | the floor is at most the value and more than the value minus one |
| Geometry.Ceil | submodules/TabBarUI/Sources/TabBarNode.swift:44 | the ceiling is at least the value and less than the value plus one |
| Geometry.LerpBetween | submodules/SwitchNode/Sources/LiquidGlassSwitchNode.swift:276-279 | a channel moved a fraction t in [0, 1] of the way from a to b stays between a and b, and is a at 0 and b at 1 |
| Glass.PresetsOrdered | submodules/Display/Source/LiquidGlass/LiquidGlassView.swift:16-47 | each of the three presets has 0 < pressedScale < highlightScale < 1 < bounceScale, 0 < stretchFactor < 1, 0 < springDamping <= 1, highlightDuration < bounceDuration and a non-negative velocity |
| Glass.CornerRadius | submodules/Display/Source/LiquidGlass/LiquidGlassView.swift:75-84 | circle and capsule give min(width, height)/2, at most half of each side and non-negative for a non-negative size; roundedRect gives its own radius whatever the size |
| Glass.PressOffset | submodules/Display/Source/LiquidGlass/LiquidGlassView.swift:292-294 | stretch computed as a share of the extent and scaled back by it is the offset times the stretch factor |
| Glass.PressTransform | submodules/Display/Source/LiquidGlass/LiquidGlassView.swift:288-295 | the press target scales uniformly by pressedScale; without a point it does not translate; with one it translates by (p − mid) · stretchFactor on each axis of non-zero extent |
| Glass.OffsetBounded | submodules/Display/Source/LiquidGlass/LiquidGlassView.swift:292-294 | for a coordinate inside [lo, hi] the press offset is at most stretchFactor · (hi − lo)/2 |
| Glass.PressDisplacementBounded | submodules/Display/Source/LiquidGlass/LiquidGlassView.swift:291-295 | for a touch inside the bounds the press translation is at most stretchFactor times half the width (height) on each axis |
| Glass.StretchTransform | submodules/Display/Source/LiquidGlass/LiquidGlassView.swift:365-369 | the stretch target scales each axis by 1 + direction · stretchFactor and does not translate |
| Glass.StretchWithinFactor | submodules/Display/Source/LiquidGlass/LiquidGlassView.swift:365-369 | for an ordered config and a direction in [−1, 1]², both stretch scales lie within 1 ± stretchFactor and are positive |
| Glass.Highlight | submodules/Display/Source/LiquidGlass/LiquidGlassView.swift:264-275 | requesting the current state changes nothing; pressing stores the point, shows the overlay and targets the press transform; releasing clears the point, hides the overlay and targets identity; nothing but the highlight flag, touch point, overlay opacity and timeline changes |
| Glass.HighlightIdempotent | submodules/Display/Source/LiquidGlass/LiquidGlassView.swift:265 | pressing (releasing) twice is the same as once, whatever points are passed |
| Glass.PressReleaseReturnsToIdle | submodules/Display/Source/LiquidGlass/LiquidGlassView.swift:264-330 | a press followed by a release leaves an idle surface idle, with no point, overlay 0, timeline to identity and the same props |
| Glass.Bounce | submodules/Display/Source/LiquidGlass/LiquidGlassView.swift:332-360 | the timeline is bounceScale, then identity, then the completion when given; nothing else changes, not even the highlight |
| Glass.Stretch | submodules/Display/Source/LiquidGlass/LiquidGlassView.swift:362-394 | the timeline is the stretch transform, then identity, then the completion when given; nothing else changes |
| Glass.Selection | submodules/Display/Source/LiquidGlass/LiquidGlassView.swift:396-424 | `selected == false` changes nothing; `true` sets the timeline to highlightScale then identity and changes nothing else |
| Glass.CompletionComesLast | submodules/Display/Source/LiquidGlass/LiquidGlassView.swift:344-357 | in a pulse, a completion step occurs iff a completion was given, and only as the third, last step |
| Glass.UpdateBlur | submodules/Display/Source/LiquidGlass/LiquidGlassView.swift:171-210 | afterwards a backdrop exists iff blur is enabled and transparency is not reduced; an existing one is kept as is; a new one gets a fresh id and the current blur radius; layout is requested |
| Glass.BlurRadiusOnlyAtCreation | submodules/Display/Source/LiquidGlass/LiquidGlassView.swift:171-203 | changing the blur radius of a surface that already has a backdrop leaves that backdrop, and its radius, unchanged |
| Glass.SettersKeepConsistent | submodules/Display/Source/LiquidGlass/LiquidGlassView.swift:88-124 | each of the seven property setters keeps the invariant "backdrop iff blur and no reduced transparency, shadow opacity follows its flag" |
| Glass.Layout | submodules/Display/Source/LiquidGlass/LiquidGlassView.swift:231-262 | layout stores the bounds and sets the corner radius the shape gives for their size |
| Glass.InitialState | submodules/Display/Source/LiquidGlass/LiquidGlassView.swift:139-169 | a new surface keeps the backdrop invariant, is not highlighted, has no touch point and a hidden overlay |
| Glass.LiquidGlassView.constructor | submodules/Display/Source/LiquidGlass/LiquidGlassView.swift:139-169 | init(frame:) followed by setupView yields the initial state for the frame's size, with a fresh content container, and the view's invariant holds |
| Glass.LiquidGlassView.UpdateBlurEffect | submodules/Display/Source/LiquidGlass/LiquidGlassView.swift:171-210 | the new state is UpdateBlur of the old |
| Glass.LiquidGlassView.UpdateShadow | submodules/Display/Source/LiquidGlass/LiquidGlassView.swift:216-225 | shadow opacity becomes 0.15 when the shadow is enabled, 0 otherwise; nothing else changes |
| Glass.LiquidGlassView.SetShape | submodules/Display/Source/LiquidGlass/LiquidGlassView.swift:88-92 | stores the shape and requests layout; the invariant is kept |
| Glass.LiquidGlassView.SetAnimationConfig | submodules/Display/Source/LiquidGlass/LiquidGlassView.swift:94 | stores the config only; the invariant is kept |
| Glass.LiquidGlassView.SetBlurRadius | submodules/Display/Source/LiquidGlass/LiquidGlassView.swift:96-100 | stores the radius and runs the blur update; the invariant is kept |
| Glass.LiquidGlassView.SetTintColor | submodules/Display/Source/LiquidGlass/LiquidGlassView.swift:102-106 | stores the tint only; the invariant is kept |
| Glass.LiquidGlassView.SetEnableBlur | submodules/Display/Source/LiquidGlass/LiquidGlassView.swift:108-112 | stores the flag and runs the blur update; the invariant is kept |
| Glass.LiquidGlassView.SetEnableShadow | submodules/Display/Source/LiquidGlass/LiquidGlassView.swift:114-118 | stores the flag and updates the shadow opacity; the invariant is kept |
| Glass.LiquidGlassView.SetHighlightColor | submodules/Display/Source/LiquidGlass/LiquidGlassView.swift:120-124 | stores the highlight colour only; the invariant is kept |
| Glass.LiquidGlassView.LayoutSubviews | submodules/Display/Source/LiquidGlass/LiquidGlassView.swift:231-262 | the new state is Layout of the old with the new bounds; the invariant is kept |
| Glass.LiquidGlassView.AnimateHighlight | submodules/Display/Source/LiquidGlass/LiquidGlassView.swift:264-275 | the new state is Highlight of the old; the invariant is kept |
| Glass.LiquidGlassView.AnimatePress | submodules/Display/Source/LiquidGlass/LiquidGlassView.swift:277-306 | overlay opacity 1 and a timeline to the press transform; nothing else changes; the invariant is kept |
| Glass.LiquidGlassView.AnimateRelease | submodules/Display/Source/LiquidGlass/LiquidGlassView.swift:308-330 | overlay opacity 0 and a timeline to identity; nothing else changes; the invariant is kept |
| Glass.LiquidGlassView.AnimateBounce | submodules/Display/Source/LiquidGlass/LiquidGlassView.swift:332-360 | the new state is Bounce of the old; the invariant is kept |
| Glass.LiquidGlassView.AnimateStretch | submodules/Display/Source/LiquidGlass/LiquidGlassView.swift:362-394 | the new state is Stretch of the old; the invariant is kept |
| Glass.LiquidGlassView.AnimateSelection | submodules/Display/Source/LiquidGlass/LiquidGlassView.swift:396-424 | the new state is Selection of the old; the invariant is kept |
| Glass.LiquidGlassButton.constructor | submodules/Display/Source/LiquidGlass/LiquidGlassView.swift:440-448 | the button owns a fresh glass view, with a fresh content container, in the initial state for its frame's size, and the button's invariant holds |
| Glass.LiquidGlassButton.SetShape | submodules/Display/Source/LiquidGlass/LiquidGlassView.swift:435-438 | the shape is forwarded to the glass view; the invariant is kept |
| Glass.LiquidGlassButton.SetAnimationConfig | submodules/Display/Source/LiquidGlass/LiquidGlassView.swift:430-433 | the config is forwarded to the glass view; the invariant is kept |
| Glass.LiquidGlassButton.BeginTracking | submodules/Display/Source/LiquidGlass/LiquidGlassView.swift:466-470 | the glass view is pressed at the touch location; the invariant is kept |
| Glass.LiquidGlassButton.EndTracking | submodules/Display/Source/LiquidGlass/LiquidGlassView.swift:476-479 | the glass view is released without a point; the invariant is kept |
| Glass.LiquidGlassButton.CancelTracking | submodules/Display/Source/LiquidGlass/LiquidGlassView.swift:481-484 | the glass view is released without a point, as on end; the invariant is kept |
| Glass.TouchCycleReturnsToIdle | submodules/Display/Source/LiquidGlass/LiquidGlassView.swift:466-484 | begin then end (or cancel) on an idle button stores and then clears the touch point and ends idle with a timeline to identity |
| GlassNodes.LoadedStateMirrorsProps | submodules/Display/Source/LiquidGlass/LiquidGlassNode.swift:63-73 | after load the view carries exactly the node's seven properties, keeps the backdrop invariant and is idle |
| GlassNodes.LoadedState | submodules/Display/Source/LiquidGlass/LiquidGlassNode.swift:63-73 | the loaded view carries the node's properties and the reduce-transparency setting, with zero bounds and no animation |
| GlassNodes.LoadedBackdropKeepsDefaultRadius | submodules/Display/Source/LiquidGlass/LiquidGlassNode.swift:63-73 | with blur enabled and transparency not reduced, the loaded view's backdrop is the one setup created, with radius 10, whatever blur radius the node holds |
| GlassNodes.LiquidGlassNode.constructor | submodules/Display/Source/LiquidGlass/LiquidGlassNode.swift:7-61 | a new node holds the default properties and no view |
| GlassNodes.LiquidGlassNode.ContentView | submodules/Display/Source/LiquidGlass/LiquidGlassNode.swift:49-51 | no content view before load; afterwards the view's |
| GlassNodes.LiquidGlassNode.Load | submodules/Display/Source/LiquidGlass/LiquidGlassNode.swift:53-73 | loading creates a fresh view, writes the seven properties into it in order, keeps the node's properties and leaves the view mirroring them |
| GlassNodes.LiquidGlassNode.SetShape | submodules/Display/Source/LiquidGlass/LiquidGlassNode.swift:7-11 | stores the shape; forwards it to a loaded view; keeps the view mirroring the node |
| GlassNodes.LiquidGlassNode.SetAnimationConfig | submodules/Display/Source/LiquidGlass/LiquidGlassNode.swift:13-17 | stores the config; forwards it to a loaded view; keeps the mirror |
| GlassNodes.LiquidGlassNode.SetBlurRadius | submodules/Display/Source/LiquidGlass/LiquidGlassNode.swift:19-23 | stores the radius; forwards it to a loaded view; keeps the mirror |
| GlassNodes.LiquidGlassNode.SetGlassTintColor | submodules/Display/Source/LiquidGlass/LiquidGlassNode.swift:25-29 | stores the tint; forwards it to a loaded view; keeps the mirror |
| GlassNodes.LiquidGlassNode.SetEnableBlur | submodules/Display/Source/LiquidGlass/LiquidGlassNode.swift:31-35 | stores the flag; forwards it to a loaded view; keeps the mirror |
| GlassNodes.LiquidGlassNode.SetEnableShadow | submodules/Display/Source/LiquidGlass/LiquidGlassNode.swift:37-41 | stores the flag; forwards it to a loaded view; keeps the mirror |
| GlassNodes.LiquidGlassNode.SetHighlightColor | submodules/Display/Source/LiquidGlass/LiquidGlassNode.swift:43-47 | stores the colour; forwards it to a loaded view; keeps the mirror |
| GlassNodes.LiquidGlassNode.AnimateHighlight | submodules/Display/Source/LiquidGlass/LiquidGlassNode.swift:75-77 | with a view, it highlights the view with the same arguments; the invariant is kept |
| GlassNodes.LiquidGlassNode.AnimateBounce | submodules/Display/Source/LiquidGlass/LiquidGlassNode.swift:79-81 | with a view, it bounces the view with the same completion; the invariant is kept |
| GlassNodes.LiquidGlassNode.AnimateStretch | submodules/Display/Source/LiquidGlass/LiquidGlassNode.swift:83-85 | with a view, it stretches the view with the same arguments; the invariant is kept |
| GlassNodes.LiquidGlassNode.AnimateSelection | submodules/Display/Source/LiquidGlass/LiquidGlassNode.swift:87-89 | with a view, it pulses the view with the same argument; the invariant is kept |
| GlassNodes.LiquidGlassButtonNode.constructor | submodules/Display/Source/LiquidGlass/LiquidGlassNode.swift:92-122 | a new button node has circle shape, the default config, no pressed handler and no view |
| GlassNodes.LiquidGlassButtonNode.ContentView | submodules/Display/Source/LiquidGlass/LiquidGlassNode.swift:107-109 | no content view before load; afterwards the button's |
| GlassNodes.LiquidGlassButtonNode.Load | submodules/Display/Source/LiquidGlass/LiquidGlassNode.swift:113-129 | loading creates a fresh button whose glass view has the node's shape, then its config, and mirrors both |
| GlassNodes.LiquidGlassButtonNode.SetShape | submodules/Display/Source/LiquidGlass/LiquidGlassNode.swift:95-99 | stores the shape and forwards it through the button to its glass view |
| GlassNodes.LiquidGlassButtonNode.SetAnimationConfig | submodules/Display/Source/LiquidGlass/LiquidGlassNode.swift:101-105 | stores the config and forwards it through the button to its glass view |
| GlassNodes.LiquidGlassButtonNode.SetPressed | submodules/Display/Source/LiquidGlass/LiquidGlassNode.swift:111 | stores the pressed handler only; the invariant is kept |
| GlassNodes.LiquidGlassButtonNode.ButtonPressed | submodules/Display/Source/LiquidGlass/LiquidGlassNode.swift:131-133 | a touch-up-inside calls the pressed handler exactly once when one is set, and nothing otherwise; the invariant is kept |
| GlassNodes.LiquidGlassButtonNode.AnimateBounce | submodules/Display/Source/LiquidGlass/LiquidGlassNode.swift:135-137 | with a view, it bounces the button's glass view; the invariant is kept |
| TabLens.LensFrame | submodules/TabBarUI/Sources/TabBarNode.swift:1016-1025 | the lens is the content width (or the tab width without one) plus 16 on each side, centred on the tab's midX, at y 1 and 36 high |
| TabLens.BridgeFrame | submodules/TabBarUI/Sources/TabBarNode.swift:198-209 | the bridge is centred on the mean of the two midXs, |Δmid| + max of the widths wide, at the target's y and 92% of its height |
| TabLens.BridgeCoversBoth | submodules/TabBarUI/Sources/TabBarNode.swift:199-209 | the bridge spans both the old and the new frame horizontally |
| TabLens.RotationTowards | submodules/TabBarUI/Sources/TabBarNode.swift:234 | the gradient swings by +π/6 toward a larger index and by −π/6 otherwise, as the `±π/6` at this line |
| TabLens.MoveTo | submodules/TabBarUI/Sources/TabBarNode.swift:196-242 | a move ends at the target frame; unanimated it only sets the frame; animated it records the bridge keyframe at radius 0.85·18 and the target keyframe at 18, the rotation sign and one pending settle; nothing but the frame, radius, keyframes, rotation and pending settles changes |
| TabLens.MoveEndsAtTarget | submodules/TabBarUI/Sources/TabBarNode.swift:203-225 | the last keyframe is exactly the target with radius 18, after a bridge with a smaller radius at the target's y |
| TabLens.Settle | submodules/TabBarUI/Sources/TabBarNode.swift:226-230 | the completion of a move targets identity and clears one pending settle; nothing else changes |
| TabLens.Highlight | submodules/TabBarUI/Sources/TabBarNode.swift:244-269 | requesting the current state changes nothing; pressing shows the overlay and targets scale 0.94 moved 1 down; releasing hides it and targets identity; nothing but the highlight flag, overlay opacity and timeline changes |
| TabLens.HighlightIdempotent | submodules/TabBarUI/Sources/TabBarNode.swift:245 | highlighting twice with the same value is highlighting once |
| TabLens.Selection | submodules/TabBarUI/Sources/TabBarNode.swift:271-279 | the selection pulse targets scale 0.96, then identity; nothing else changes |
| TabLens.Bounce | submodules/TabBarUI/Sources/TabBarNode.swift:281-291 | the bounce targets scale 1.08, then identity; nothing else changes |
| TabLens.PulsesReturnToIdentity | submodules/TabBarUI/Sources/TabBarNode.swift:271-291 | both pulses end at identity; the selection one shrinks and the bounce one grows |
| TabLens.LiquidGlassLensView.constructor | submodules/TabBarUI/Sources/TabBarNode.swift:104-116 | a new lens has the given frame, radius 18, alpha 1, no highlight and no move in flight |
| TabLens.LiquidGlassLensView.SetFrame | submodules/TabBarUI/Sources/TabBarNode.swift:1030 | sets the frame only |
| TabLens.LiquidGlassLensView.SetAlpha | submodules/TabBarUI/Sources/TabBarNode.swift:602 | sets the alpha only |
| TabLens.LiquidGlassLensView.AnimateToFrame | submodules/TabBarUI/Sources/TabBarNode.swift:196-242 | the new state is MoveTo of the old |
| TabLens.LiquidGlassLensView.FinishMove | submodules/TabBarUI/Sources/TabBarNode.swift:226-230 | the new state is Settle of the old |
| TabLens.LiquidGlassLensView.AnimateHighlight | submodules/TabBarUI/Sources/TabBarNode.swift:244-269 | the new state is Highlight of the old |
| TabLens.LiquidGlassLensView.AnimateSelection | submodules/TabBarUI/Sources/TabBarNode.swift:271-279 | the new state is Selection of the old |
| TabLens.LiquidGlassLensView.AnimateBounce | submodules/TabBarUI/Sources/TabBarNode.swift:281-291 | the new state is Bounce of the old |
| TabBar.DrawnImageSize | submodules/TabBarUI/Sources/TabBarNode.swift:27-37 | no image gives zero; vertically the image keeps its size; horizontally each side is 80% floored |
| TabBar.ItemImage | submodules/TabBarUI/Sources/TabBarNode.swift:39-51 | the canvas is 34 (horizontal) or 45 (vertical) high and at least 1 wide; horizontally it fits title + 4 + image and is all content; vertically it fits the title and the image and only the image is content; a centred bar sizes by the image alone |
| TabBar.IconImage | submodules/TabBarUI/Sources/TabBarNode.swift:772-790 | a selected animated tab has an empty icon; with ring selection honoured the icon is the raw image, or empty, with the image's width as content; otherwise it is drawn, at least 1 wide and 34 (horizontal) or 45 high |
| TabBar.Render | submodules/TabBarUI/Sources/TabBarNode.swift:771-841 | a tab shows its title image and its icon image; its content width is the larger of their two content widths |
| TabBar.ContentWidthNonNegative | submodules/TabBarUI/Sources/TabBarNode.swift:39-51 | with non-negative images the content width is non-negative (at least 1 horizontally), so every lens is at least 32 wide |
| TabBar.NewContainer | submodules/TabBarUI/Sources/TabBarNode.swift:670-747 | a loaded tab is rendered for its selection, is interactive and has its item's badge pending |
| TabBar.ApplyBadge | submodules/TabBarUI/Sources/TabBarNode.swift:962-970 | afterwards the badge value is applied; an already applied value changes nothing; a new one is hidden iff empty and shows its text otherwise; the display invariant is kept |
| TabBar.BadgeBackgroundWidth | submodules/TabBarUI/Sources/TabBarNode.swift:973-978 | at least 18; exactly 18 for a one-element text; otherwise at least the measured width + 11 |
| TabBar.VisibleTabs | submodules/TabBarUI/Sources/TabBarNode.swift:890-902 | with exactly four tabs and a right inset, tab 1 is dropped ([0, 2, 3]); otherwise every tab in order; indices increase and are below the count |
| TabBar.NodeFrame | submodules/TabBarUI/Sources/TabBarNode.swift:910-922 | the node keeps its title image's size at y 3, with its centre within one point below the centre of its equal slot |
| TabBar.LayoutWidth | submodules/TabBarUI/Sources/TabBarNode.swift:888-896 | the tabs share the bar's width, less the right side inset exactly when that inset is positive |
| TabBar.SlotFrame | submodules/TabBarUI/Sources/TabBarNode.swift:910-922 | the frame of a visible position is at y 3 with the size of the title image of the tab shown there |
| TabBar.SlotsEvenlySpaced | submodules/TabBarUI/Sources/TabBarNode.swift:910-920 | neighbouring tabs' centres are one slot width apart, within a point |
| TabBar.Reload | submodules/TabBarUI/Sources/TabBarNode.swift:663-754 | one fresh container per item, selected where the index is the selection; nothing else changes |
| TabBar.NodeImage | submodules/TabBarUI/Sources/TabBarNode.swift:756-852 | an index outside the bar changes nothing; otherwise the tab is re-rendered for its selection with ring selection honoured, in the orientation the result has; every other tab keeps its look unless a requested relayout flipped the orientation, which re-renders it; without layout, nothing else changes |
| TabBar.Rerendered | submodules/TabBarUI/Sources/TabBarNode.swift:756-852 | the first half of updateNodeImage: tab i shows its item rendered for its selection in the bar's orientation, and no other tab and no other state changes |
| TabBar.RenderAll | submodules/TabBarUI/Sources/TabBarNode.swift:878-884 | each of the first n tabs is re-rendered for its selection in the bar's orientation with ring selection honoured; every other container and all other state is unchanged |
| TabBar.ShowCallsTab | submodules/TabBarUI/Sources/TabBarNode.swift:891-908 | in a four-tab bar, tab 1 is hidden and disabled with a right inset and shown and enabled without; every other tab is untouched, and no tab's rendition or selection mark changes |
| TabBar.PlaceTabs | submodules/TabBarUI/Sources/TabBarNode.swift:915-970 | the placement loop keeps the number of tabs, every rendition and every selection mark |
| TabBar.PlaceTabsKeepsLooks | submodules/TabBarUI/Sources/TabBarNode.swift:915-970 | the placement loop changes no tab's rendition or selection mark |
| TabBar.ShowLens | submodules/TabBarUI/Sources/TabBarNode.swift:995-1010 | a transparent lens over a laid-out selected tab is moved to its lens frame and faded in; a visible lens, or a selection with no recorded frame, is left alone |
| TabBar.Arrange | submodules/TabBarUI/Sources/TabBarNode.swift:886-1011 | after the layout a bar without tabs is unchanged; items, selection, orientation, every tab's rendition and selection mark and the lens's existence never change |
| TabBar.Layout | submodules/TabBarUI/Sources/TabBarNode.swift:872-1012 | the layout is recorded and the orientation becomes horizontal iff the left inset is non-zero; with the orientation unchanged the result is the arrangement alone and every tab keeps its look; when it flips, every tab is re-rendered for its selection in the new orientation before the arrangement |
| TabBar.Select | submodules/TabBarUI/Sources/TabBarNode.swift:532-544 | the setter stores the selection; setting the current one changes nothing; otherwise the old tab is shown unselected and the new one selected, each rendered in the resulting orientation, and every other tab keeps its look unless a relayout flipped the orientation; items, selections and the lens's existence are kept |
| TabBar.ReselectLooks | submodules/TabBarUI/Sources/TabBarNode.swift:532-544 | the two updateNodeImage calls of the setter: the old tab ends unselected, the new one selected, and the others keep their look or are re-rendered unselected after an orientation flip |
| TabBar.NodeBadge | submodules/TabBarUI/Sources/TabBarNode.swift:854-861 | stores the value; without a layout, or with the value already applied, nothing else changes |
| TabBar.NodeBadgeRelayouts | submodules/TabBarUI/Sources/TabBarNode.swift:854-861 | a new value on a laid-out bar relayouts it with the recorded layout; a tab that layout shows then has the value applied, its badge hidden exactly when the value is empty |
| TabBar.SharedLens | submodules/TabBarUI/Sources/TabBarNode.swift:1015-1032 | no recorded frame for the index changes nothing; otherwise the lens goes to that tab's lens frame, through a move when a previous index is given and the move is animated, by setting the frame otherwise |
| TabBar.NearestIn | submodules/TabBarUI/Sources/TabBarNode.swift:1039-1053 | a found candidate is an interactive tab with its true distance |
| TabBar.Nearest | submodules/TabBarUI/Sources/TabBarNode.swift:1039-1053 | a found candidate is a tab of the bar |
| TabBar.Distance | submodules/TabBarUI/Sources/TabBarNode.swift:1045 | the distance is non-negative, zero iff the tap is at the tab centre, and the gap on either side |
| TabBar.NearestIsArgmin | submodules/TabBarUI/Sources/TabBarNode.swift:1039-1053 | none is found iff no tab is interactive; the found tab is at least as close as every interactive tab and strictly closer than every earlier one |
| TabBar.LensPulse | submodules/TabBarUI/Sources/TabBarNode.swift:1064-1071 | the lens gets the bounce or the selection pulse; nothing else changes |
| TabBar.Tap | submodules/TabBarUI/Sources/TabBarNode.swift:1034-1074 | no layout, a tap in the bottom inset, or no interactive tab changes nothing; otherwise the nearest tab is reported once; a tap on the selected tab bounces the lens and any other tap pulses it |
| TabBar.TapOn | submodules/TabBarUI/Sources/TabBarNode.swift:1056-1074 | a tap on tab i appends one selection report, keeps the lens present iff it was, bounces the lens (1.08) on the selected tab and pulses it (0.96) otherwise, and keeps the selection in range |
| TabBar.TapOnNewTabMovesLens | submodules/TabBarUI/Sources/TabBarNode.swift:1059-1067 | a tap on an unselected, laid-out tab moves the lens to its lens frame through the bridge from the old frame, with one settle pending, for a host that leaves the selection alone |
| TabBar.TapSelectingNewTabMovesLens | submodules/TabBarUI/Sources/TabBarNode.swift:1055-1067 | when the host selects the tapped tab, the tab ends selected with the selected bar's tabs and frames, and the lens moves through the bridge to the frame recorded for it in that bar, with one more settle pending |
| TabBar.RecordFramesEffect | submodules/TabBarUI/Sources/TabBarNode.swift:915-960 | the loop records the slot frame of each visible position under that position, keeps every later key and adds no other key |
| TabBar.RecordFrames | submodules/TabBarUI/Sources/TabBarNode.swift:960 | each loop step records the slot frame of visible position k under key k and never removes a key |
| TabBar.PlacementOnSlots | submodules/TabBarUI/Sources/TabBarNode.swift:910-970 | for every visible position the table holds the frame the tab shown there was given, which is its slot's NodeFrame, its badge is applied and hidden iff empty, and the only new keys are positions |
| TabBar.PlaceTabsEffect | submodules/TabBarUI/Sources/TabBarNode.swift:915-993 | the loop frames each visible tab in its slot with its badge applied and leaves every other tab untouched |
| TabBar.LayoutUnfolds | submodules/TabBarUI/Sources/TabBarNode.swift:886-1011 | with the orientation unchanged the layout is the placement loop over the calls-tab-adjusted tabs |
| TabBar.PlacementRecordsFrames | submodules/TabBarUI/Sources/TabBarNode.swift:910-970 | for every visible position the table holds the frame given to the tab shown there, which is its slot's NodeFrame; that tab's badge is applied and hidden iff empty; no new keys |
| TabBar.LayoutRecordsFrames | submodules/TabBarUI/Sources/TabBarNode.swift:872-970 | the same facts for the full layout of a non-empty bar that keeps its orientation |
| TabBar.LayoutDropsCallsTab | submodules/TabBarUI/Sources/TabBarNode.swift:891-960 | with four tabs and a right inset the calls tab is hidden, disabled and not moved, and tabs 0, 2 and 3 are recorded under keys 0, 1 and 2 |
| TabBar.HiddenCallsTabShiftsLens | submodules/TabBarUI/Sources/TabBarNode.swift:960-999 | with the calls tab hidden, a transparent lens over selected tab 2 is centred on tab 3's frame |
| TabBar.LayoutLeavesVisibleLens | submodules/TabBarUI/Sources/TabBarNode.swift:1005-1010 | a layout that keeps the orientation never moves a lens that is already visible |
| TabBar.TabBarNode.constructor | submodules/TabBarUI/Sources/TabBarNode.swift:565-586 | a new bar has no items, no selection, no layout, no frames and no lens |
| TabBar.TabBarNode.DidLoad | submodules/TabBarUI/Sources/TabBarNode.swift:588-606 | loading creates a fresh lens at the zero frame with alpha 0 |
| TabBar.TabBarNode.SetTabBarItems | submodules/TabBarUI/Sources/TabBarNode.swift:663-754 | the items setter rebuilds the containers as Reload does |
| TabBar.TabBarNode.UpdateNodeImage | submodules/TabBarUI/Sources/TabBarNode.swift:756-852 | the new state is NodeImage of the old |
| TabBar.TabBarNode.UpdateLayout | submodules/TabBarUI/Sources/TabBarNode.swift:872-1012 | the new state is Layout of the old |
| TabBar.TabBarNode.RenderTabs | submodules/TabBarUI/Sources/TabBarNode.swift:878-884 | the re-render loop leaves the state RenderAll gives for every tab |
| TabBar.TabBarNode.ArrangeTabs | submodules/TabBarUI/Sources/TabBarNode.swift:886-1011 | the new state is Arrange of the old |
| TabBar.TabBarNode.PlaceVisibleTabs | submodules/TabBarUI/Sources/TabBarNode.swift:915-993 | the loop leaves the containers and frame table as PlaceTabs and RecordFrames give them; nothing else changes |
| TabBar.TabBarNode.ShowHiddenLens | submodules/TabBarUI/Sources/TabBarNode.swift:995-1011 | the new state is ShowLens of the old |
| TabBar.TabBarNode.SetSelectedIndex | submodules/TabBarUI/Sources/TabBarNode.swift:532-544 | the new state is Select of the old, so the old tab is re-rendered unselected and the new one selected |
| TabBar.TabBarNode.UpdateNodeBadge | submodules/TabBarUI/Sources/TabBarNode.swift:854-861 | the new state is NodeBadge of the old; a new value on a laid-out bar is the relayout, with the badge of a shown tab applied and hidden exactly when empty |
| TabBar.TabBarNode.UpdateSharedLensPosition | submodules/TabBarUI/Sources/TabBarNode.swift:1015-1032 | the new state is SharedLens of the old |
| TabBar.TabBarNode.ClosestNode | submodules/TabBarUI/Sources/TabBarNode.swift:1039-1053 | the search loop returns Nearest of the tabs |
| TabBar.TabBarNode.Tapped | submodules/TabBarUI/Sources/TabBarNode.swift:1034-1074 | the new state is Tap of the old |
| TabBar.TabBarNode.TappedOn | submodules/TabBarUI/Sources/TabBarNode.swift:1056-1074 | the new state is TapOn of the old, the lens object is kept and the invariant holds |
| TabBar.TabBarNode.PulseLens | submodules/TabBarUI/Sources/TabBarNode.swift:1059-1071 | after a tap the lens is moved to the tab and pulsed when it was not the selection before the tap, and bounced otherwise; the lens object is kept and the invariant holds |
| GlassSwitch.ThumbHighlight | submodules/SwitchNode/Sources/LiquidGlassSwitchNode.swift:82-104 | pressing shows the overlay and targets scale 0.92; releasing hides it and targets identity; every call commits one more animation |
| GlassSwitch.ThumbHighlightUnguarded | submodules/SwitchNode/Sources/LiquidGlassSwitchNode.swift:82-104 | repeating a highlight reaches the same targets but is not the same state: it animates again |
| GlassSwitch.ThumbFrame | submodules/SwitchNode/Sources/LiquidGlassSwitchNode.swift:189-197 | the resting thumb is 27×27 at y 2, at x 22 (ending 2 before the right edge) when on and at x 2 when off |
| GlassSwitch.ThumbFramesInsideTrack | submodules/SwitchNode/Sources/LiquidGlassSwitchNode.swift:189-197 | both resting frames lie inside the 51×31 track, and the on frame's centre is past 25.5 iff on |
| GlassSwitch.InterpolateProperties | submodules/SwitchNode/Sources/LiquidGlassSwitchNode.swift:266-281 | interpolation gives `from` at 0 and `to` at 1, clamps progress outside [0, 1] to the nearer end, and every channel stays between the two colours |
| GlassSwitch.Interpolate | submodules/SwitchNode/Sources/LiquidGlassSwitchNode.swift:266-281 | progress at or below 0 gives `from` and progress at or above 1 gives `to` |
| GlassSwitch.Progress | submodules/SwitchNode/Sources/LiquidGlassSwitchNode.swift:243 | progress is 0 at x 2, 1 at x 22 and in [0, 1] between |
| GlassSwitch.Settle | submodules/SwitchNode/Sources/LiquidGlassSwitchNode.swift:189-212 | the thumb goes to its resting frame and the track to its state's colour, with state and reports kept; nothing but the thumb frame and track colour changes |
| GlassSwitch.Report | submodules/SwitchNode/Sources/LiquidGlassSwitchNode.swift:224 | with a handler, one report of the current state is appended; otherwise nothing changes |
| GlassSwitch.WithIsOn | submodules/SwitchNode/Sources/LiquidGlassSwitchNode.swift:123-134 | setting the current value changes nothing; a new value is stored and brought to rest; it never reports; nothing but the value, thumb frame and track colour changes |
| GlassSwitch.WithTrackColors | submodules/SwitchNode/Sources/LiquidGlassSwitchNode.swift:110-120 | the track is recoloured at once with the colour for the current state |
| GlassSwitch.Loaded | submodules/SwitchNode/Sources/LiquidGlassSwitchNode.swift:155-179 | after setup and load the track is 51×31 and the switch is at rest; only the track colour and frame and the thumb frame change |
| GlassSwitch.Tap | submodules/SwitchNode/Sources/LiquidGlassSwitchNode.swift:214-225 | a tap negates the state, brings it to rest, presses the thumb, schedules one release and reports the new value exactly once when a handler is set; nothing else changes |
| GlassSwitch.Release | submodules/SwitchNode/Sources/LiquidGlassSwitchNode.swift:220-222 | the delayed release un-highlights the thumb and clears one pending release |
| GlassSwitch.TapTwiceRestores | submodules/SwitchNode/Sources/LiquidGlassSwitchNode.swift:214-225 | with a handler set, two taps restore the state and report the new value, then the old one |
| GlassSwitch.Pan | submodules/SwitchNode/Sources/LiquidGlassSwitchNode.swift:227-264 | began tracks, presses and starts the translation at zero; changed moves the thumb's reported frame origin, as the pressed scale places it, by the accumulated translation clamped to [2, 22], consumes the translation and colours the track by the progress of that origin; ended and cancelled set the state by whether the untransformed thumb centre is past 25.5, report only a change and return to rest; other phases change nothing |
| GlassSwitch.PanEnd | submodules/SwitchNode/Sources/LiquidGlassSwitchNode.swift:246-259 | the end of a pan decides the state by the thumb centre, stops tracking, releases the thumb, reports only a changed value and returns to rest; nothing else changes |
| GlassSwitch.FrameOriginX | submodules/SwitchNode/Sources/LiquidGlassSwitchNode.swift:235 | the reported frame x is the untransformed x when unpressed and 1.08 points further right under the 0.92 scale for a thumb of its size |
| GlassSwitch.WithFrameOriginX | submodules/SwitchNode/Sources/LiquidGlassSwitchNode.swift:240 | writing the reported x makes the reported x the written value and keeps y, width and height |
| GlassSwitch.FrameOriginWriteBack | submodules/SwitchNode/Sources/LiquidGlassSwitchNode.swift:235-240 | writing back the x just read leaves the frame as it was |
| GlassSwitch.DragFrame | submodules/SwitchNode/Sources/LiquidGlassSwitchNode.swift:234-240 | the reported x after a change is the old reported x plus the translation, clamped to [2, 22]; only x changes |
| GlassSwitch.DragThumb | submodules/SwitchNode/Sources/LiquidGlassSwitchNode.swift:234-240 | a change moves only the thumb's frame, by the clamped translation of its reported x |
| GlassSwitch.PressedDragLagsBehind | submodules/SwitchNode/Sources/LiquidGlassSwitchNode.swift:229-251 | a pressed thumb at rest already shows progress 0.054; moves of −5 and +10.5 leave its centre at 24.92, short of the middle, where an unpressed thumb would reach 26 |
| GlassSwitch.Moved | submodules/SwitchNode/Sources/LiquidGlassSwitchNode.swift:234-241 | more recognizer movement grows the translation by exactly that amount and changes nothing else |
| GlassSwitch.MovesAccumulate | submodules/SwitchNode/Sources/LiquidGlassSwitchNode.swift:234-241 | movements between two changes add up, and the change sees their sum |
| GlassSwitch.DragIsIncremental | submodules/SwitchNode/Sources/LiquidGlassSwitchNode.swift:233-244 | a second change with no new movement leaves everything where the first put it |
| GlassSwitch.BeganForgetsMovement | submodules/SwitchNode/Sources/LiquidGlassSwitchNode.swift:229-234 | movement reported before a pan begins does not reach its first change |
| GlassSwitch.ReleaseFollowsProgress | submodules/SwitchNode/Sources/LiquidGlassSwitchNode.swift:233-251 | with a thumb of its size, a release after a change turns the switch on iff the drag progress shown is past 0.5 for an unpressed thumb and past 0.554 for a thumb under the pressed scale |
| GlassSwitch.ReleaseAtRestKeepsState | submodules/SwitchNode/Sources/LiquidGlassSwitchNode.swift:246-259 | a pan released with the thumb at its resting frame keeps the state and reports nothing |
| GlassSwitch.RestingPreserved | submodules/SwitchNode/Sources/LiquidGlassSwitchNode.swift:110-259 | the setters, a tap, a delayed release and every pan phase but a change keep a resting switch at rest |
| GlassSwitch.SizeThatFits | submodules/SwitchNode/Sources/LiquidGlassSwitchNode.swift:283-285 | the switch is 51×31 whatever it is offered |
| GlassSwitch.LiquidGlassThumbView.constructor | submodules/SwitchNode/Sources/LiquidGlassSwitchNode.swift:17-22 | a new thumb has the given frame, overlay 0, identity and no animation |
| GlassSwitch.LiquidGlassThumbView.SetFrame | submodules/SwitchNode/Sources/LiquidGlassSwitchNode.swift:197-204 | sets the frame only |
| GlassSwitch.LiquidGlassThumbView.AnimateHighlight | submodules/SwitchNode/Sources/LiquidGlassSwitchNode.swift:82-104 | the new state is ThumbHighlight of the old |
| GlassSwitch.LiquidGlassSwitchNode.constructor | submodules/SwitchNode/Sources/LiquidGlassSwitchNode.swift:107-153 | a new switch is off with the default colours, no track colour and no handler |
| GlassSwitch.LiquidGlassSwitchNode.UpdateThumbPosition | submodules/SwitchNode/Sources/LiquidGlassSwitchNode.swift:189-206 | the thumb goes to the resting frame for the state |
| GlassSwitch.LiquidGlassSwitchNode.UpdateColors | submodules/SwitchNode/Sources/LiquidGlassSwitchNode.swift:208-212 | the track takes the on colour when on and the off colour otherwise |
| GlassSwitch.LiquidGlassSwitchNode.SetIsOn | submodules/SwitchNode/Sources/LiquidGlassSwitchNode.swift:123-134 | the new state is WithIsOn of the old |
| GlassSwitch.LiquidGlassSwitchNode.SetOn | submodules/SwitchNode/Sources/LiquidGlassSwitchNode.swift:181-187 | the new state is WithIsOn of the old, animated or not |
| GlassSwitch.LiquidGlassSwitchNode.SetTrackOffColor | submodules/SwitchNode/Sources/LiquidGlassSwitchNode.swift:110-114 | the new state is WithTrackColors with the new off colour |
| GlassSwitch.LiquidGlassSwitchNode.SetTrackOnColor | submodules/SwitchNode/Sources/LiquidGlassSwitchNode.swift:116-120 | the new state is WithTrackColors with the new on colour |
| GlassSwitch.LiquidGlassSwitchNode.SetValueUpdated | submodules/SwitchNode/Sources/LiquidGlassSwitchNode.swift:108 | stores the handler only |
| GlassSwitch.LiquidGlassSwitchNode.DidLoad | submodules/SwitchNode/Sources/LiquidGlassSwitchNode.swift:155-179 | the new state is Loaded of the old |
| GlassSwitch.LiquidGlassSwitchNode.HandleTap | submodules/SwitchNode/Sources/LiquidGlassSwitchNode.swift:214-225 | the new state is Tap of the old |
| GlassSwitch.LiquidGlassSwitchNode.DelayedRelease | submodules/SwitchNode/Sources/LiquidGlassSwitchNode.swift:220-222 | the new state is Release of the old |
| GlassSwitch.LiquidGlassSwitchNode.PanMoved | submodules/SwitchNode/Sources/LiquidGlassSwitchNode.swift:234 | the recognizer's translation grows by the movement |
| GlassSwitch.LiquidGlassSwitchNode.HandlePan | submodules/SwitchNode/Sources/LiquidGlassSwitchNode.swift:227-264 | the new state is Pan of the old, reading and writing `frame.origin.x` through the thumb's pressed transform |
| GlassSwitch.LiquidGlassSwitchNode.PanChanged | submodules/SwitchNode/Sources/LiquidGlassSwitchNode.swift:233-244 | the new state is Pan of the old in the changed phase |
| GlassSwitch.LiquidGlassSwitchNode.EndPan | submodules/SwitchNode/Sources/LiquidGlassSwitchNode.swift:246-259 | the new state is PanEnd of the old |
| GlassSlider.ClampFloat | submodules/TelegramUI/Components/SliderComponent/Sources/LiquidGlassSliderComponent.swift:228 | `max(lo, min(hi, f))` over IEEE values is the clamp for a finite f, lo for −∞, and max(lo, hi) for +∞ and NaN |
| GlassSlider.Equal | submodules/TelegramUI/Components/SliderComponent/Sources/LiquidGlassSliderComponent.swift:137-157 | two components are equal iff they agree on everything but the two closures |
| GlassSlider.EqualIsEquivalence | submodules/TelegramUI/Components/SliderComponent/Sources/LiquidGlassSliderComponent.swift:137-157 | equality is reflexive (also across different closures), symmetric and transitive |
| GlassSlider.TapFraction | submodules/TelegramUI/Components/SliderComponent/Sources/LiquidGlassSliderComponent.swift:199-201 | the tap fraction is in [0, 1]; with a track it is the clamped share of the track; with a zero-width track it is 0 left of the knob centre and 1 otherwise |
| GlassSlider.TapValue | submodules/TelegramUI/Components/SliderComponent/Sources/LiquidGlassSliderComponent.swift:199-202 | the tap value is min + fraction · (max − min) and lies in [min, max] |
| GlassSlider.PanValue | submodules/TelegramUI/Components/SliderComponent/Sources/LiquidGlassSliderComponent.swift:225-228 | the pan value lies in [min, max]; with a track it is the clamp of start + Δx/track · range; with a zero-width track it is min for a left drag and max otherwise |
| GlassSlider.Layout | submodules/TelegramUI/Components/SliderComponent/Sources/LiquidGlassSliderComponent.swift:246-283 | the view is 44 high; the track starts at knob/2, is width − knob wide and 4 high, centred; the foreground covers its first (value − min)/(max − min) share; the knob is knob-sized, centred on the foreground's end and on the track's middle |
| GlassSlider.ForegroundWithinTrack | submodules/TelegramUI/Components/SliderComponent/Sources/LiquidGlassSliderComponent.swift:263-271 | for min < max, a value in range and a width of at least the knob, the foreground lies within the track, empty at min and full at max |
| GlassSlider.TapAtKnobGivesValue | submodules/TelegramUI/Components/SliderComponent/Sources/LiquidGlassSliderComponent.swift:199-273 | for min < max, a value in range and a track of non-zero width, tapping the laid-out knob's centre gives back the value |
| GlassSlider.LayoutAtTapCentresKnob | submodules/TelegramUI/Components/SliderComponent/Sources/LiquidGlassSliderComponent.swift:199-273 | for min < max and a tap on a track of non-zero width, the value the tap gives is laid out with the knob centred on the tap |
| GlassSlider.Tap | submodules/TelegramUI/Components/SliderComponent/Sources/LiquidGlassSliderComponent.swift:195-210 | without a component nothing happens; otherwise the knob is pressed, one release is scheduled and the tap value is reported exactly once |
| GlassSlider.Release | submodules/TelegramUI/Components/SliderComponent/Sources/LiquidGlassSliderComponent.swift:205-207 | the delayed release un-highlights the knob and clears one pending release |
| GlassSlider.Pan | submodules/TelegramUI/Components/SliderComponent/Sources/LiquidGlassSliderComponent.swift:212-240 | without a component, and in the other phases, nothing happens; began tracks from the value and the location, presses the knob and reports tracking when a tracking handler is set; changed reports the pan value measured from the start; ended and cancelled stop tracking, release the knob and report the end of tracking when a handler is set, with no value report |
| GlassSlider.PanAndTapReportInRange | submodules/TelegramUI/Components/SliderComponent/Sources/LiquidGlassSliderComponent.swift:199-230 | for a component with min <= max, the value a tap or a pan change reports lies in its range |
| GlassSlider.PanMeasuredFromStart | submodules/TelegramUI/Components/SliderComponent/Sources/LiquidGlassSliderComponent.swift:223-230 | the value a change reports does not depend on the changes before it |
| GlassSlider.PanBackToStart | submodules/TelegramUI/Components/SliderComponent/Sources/LiquidGlassSliderComponent.swift:216-230 | for a value in range and a track of non-zero width, a pan that returns to its start point reports the start value again |
| GlassSlider.UpdateSlider | submodules/TelegramUI/Components/SliderComponent/Sources/LiquidGlassSliderComponent.swift:242-286 | update stores the component, paints the track, lays the track and foreground out, moves the knob to its layout frame unless tracking and keeps it otherwise; nothing else changes |
| GlassSlider.TrackingHoldsKnob | submodules/TelegramUI/Components/SliderComponent/Sources/LiquidGlassSliderComponent.swift:276-283 | while a pan tracks, updates leave the knob where it is; the first update after the pan ends snaps it to the layout frame |
| GlassSlider.LiquidGlassKnobView.constructor | submodules/TelegramUI/Components/SliderComponent/Sources/LiquidGlassSliderComponent.swift:17-22 | a new knob has the given frame, overlay 0, identity and no animation |
| GlassSlider.LiquidGlassKnobView.SetFrame | submodules/TelegramUI/Components/SliderComponent/Sources/LiquidGlassSliderComponent.swift:277-282 | sets the frame only |
| GlassSlider.LiquidGlassKnobView.AnimateHighlight | submodules/TelegramUI/Components/SliderComponent/Sources/LiquidGlassSliderComponent.swift:82-104 | the knob's highlight is the switch thumb's, with no guard |
| GlassSlider.LiquidGlassSliderView.constructor | submodules/TelegramUI/Components/SliderComponent/Sources/LiquidGlassSliderComponent.swift:171-189 | a new view has no component, bounds at the frame's size, no tracking and nothing reported |
| GlassSlider.LiquidGlassSliderView.HandleTap | submodules/TelegramUI/Components/SliderComponent/Sources/LiquidGlassSliderComponent.swift:195-210 | the new state is Tap of the old |
| GlassSlider.LiquidGlassSliderView.DelayedRelease | submodules/TelegramUI/Components/SliderComponent/Sources/LiquidGlassSliderComponent.swift:205-207 | the new state is Release of the old |
| GlassSlider.LiquidGlassSliderView.HandlePan | submodules/TelegramUI/Components/SliderComponent/Sources/LiquidGlassSliderComponent.swift:212-240 | the new state is Pan of the old |
| GlassSlider.LiquidGlassSliderView.EndTracking | submodules/TelegramUI/Components/SliderComponent/Sources/LiquidGlassSliderComponent.swift:232-235 | tracking stops, the knob is released and tracking is reported when a tracking handler is set |
| GlassSlider.LiquidGlassSliderView.Update | submodules/TelegramUI/Components/SliderComponent/Sources/LiquidGlassSliderComponent.swift:242-286 | the new state is UpdateSlider of the old, and the returned size is the available width by 44 |

## Left out

- Animation timing: durations, curves, springs, keyframe interpolation and presentation-layer values are not modelled. Only the targets and their phase order are.
- The blur backend: filtering the private effect-view sublayers and hiding its subviews are left out. A backdrop is an identity plus the radius it was created with.
- Styling: tint, border, shadow path and shadow geometry, gradient and specular layers are left out, and so are the layer corner radii of the thumb, knob and lens sublayers. Only shadow opacity, the surface corner radius and the lens corner radius are kept.
- TabBar.BadgeBackgroundWidth, TabBar.ApplyBadge and TabBar.NodeBadge: a `string` here is a sequence of Unicode scalars. Swift's `count` counts grapheme clusters, so a one-cluster badge of several scalars (a flag, a keycap) is a circle of width 18 in the source but gets `Max(18, w + 11)` in the model. Swift's `!=` on strings compares by canonical equivalence, so a precomposed and a decomposed accent are the same badge in the source, while the model sees a new value and relayouts. Grapheme segmentation and Unicode normalisation are not modelled.
- Drawing: the tab image rendering (canvas drawing and text drawing) is left out. The title widths are measured by the text system and enter the model as inputs of `TabBar.TabItem`. The badge text measurement is an input of `TabBar.BadgeBackgroundWidth`.
- Badge geometry: the badge background and text frames, the scale factor and the ring image and animation node frames are not modelled. Only the badge bookkeeping is.
- These tab bar pieces are platform plumbing or theme work and are left out: animated stickers, ring animations, context and swipe actions, gesture recognizer setup and simultaneity, accessibility, `updateTheme`, `updateNodeTitle`, `frameForControllerTab` and `viewForControllerTab`.
- Layout parameters: the tab bar's right inset and bottom inset beyond the tap cut-off, and the background node's frame, are not modelled.
- Hit-test slop and the accessibility frame of each tab are not modelled.
- The host's `itemSelected` callback is external. `TabBar.Tap` takes the selection the host sets as a parameter.
- Reduced transparency is a process-wide setting read once. The glass view takes it as a constructor parameter.
- Touch and gesture locations, the pan recognizer's translation (`GlassSwitch.LiquidGlassSwitchNode.PanMoved`) and the slider view's bounds (`SetBounds`) are inputs from the environment.
- Delayed releases are a pending count with no timing. Whether the release runs after the view is gone is not modelled.
- The slider view holds a weak reference to the component state; this is not modelled.
- `LiquidGlassButton.layoutSubviews` (the glass view follows the button's bounds) and `continueTracking` are not modelled. The latter only defers to the superclass.
- The lens's `layoutSubviews` and its blur and gradient setup are not modelled.
- Colour components are unclamped reals. `getRed` failing for colours outside the RGB space is not modelled.
- Colour equality is structural; `UIColor` equality across colour spaces is not modelled.
- Glass.PressOffset: on bounds of zero extent the source divides by zero and gets NaN; the model uses an offset of 0 there.
- GlassSlider.Layout, GlassSlider.UpdateSlider and GlassSlider.LiquidGlassSliderView.Update: require maxValue ≠ minValue. Otherwise the source divides by zero and lays out non-finite frames, which are not modelled.
- GlassSlider.TapFraction, GlassSlider.PanValue: the IEEE model covers infinities and NaN from a zero-width track. It does not cover NaN or infinite inputs, or the sign of zero.
- TabBar.Select and TabBar.TabBarNode.SetSelectedIndex: require the new selection to name a tab. The source accepts any index, but traps later when it reads a container at that index; the model keeps the selection in range as an invariant.
- TabBar.TabBarNode.SetTabBarItems: requires the current selection to name one of the new items, for the same reason.
- TabBar.Tap, TabBar.TapOn, TabBar.TabBarNode.Tapped and TabBar.TabBarNode.TappedOn: require the host's selection to name a tab, for the same reason.
- TabBar.Tap, TabBar.TapOn, TabBar.TabBarNode.Tapped and TabBar.TabBarNode.TappedOn: the host's reaction is an `Option<nat>` where None means the host leaves the selection as it is, so a host that clears the selection from `itemSelected` is not modelled.
- TabBar.NodeBadge and TabBar.TabBarNode.UpdateNodeBadge: require the index to name a tab; the source traps otherwise.
- TabBar.SharedLens: requires the index to name a tab; the source traps on such an index when a frame is recorded under it.
- TabLens.LensFrame: the fallback to the tab's width never fires in the bar, because every loaded tab has a content width.
- GlassSwitch.LiquidGlassSwitchNode.SetOn: `animated` selects only between an animated frame change and a direct one, so both settings give the same target state.
- GlassSwitch.LiquidGlassSwitchNode.UpdateThumbPosition: a whole-frame write while the thumb is still pressed (a tap whose delayed release is pending) is modelled as setting the untransformed frame. GlassSlider.UpdateSlider does the same for the knob after a tap, within the knob's delayed release. UIKit leaves `frame` undefined under a transform other than identity. Reads and writes of `frame.origin.x` during a pan are modelled through the pressed scale.
- The thumb's and the knob's transforms are kept as a pressed flag, because the source only ever sets them to identity or to the 0.92 scale.

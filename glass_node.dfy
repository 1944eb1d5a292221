/** Display-node wrappers around the glass view and the glass button. A node
    owns its properties from construction on; the backing view exists only
    once the node has loaded, and every property write is forwarded to it
    when it exists. */
module GlassNodes {
  import opened Geometry
  import opened Glass

  /** The view a freshly loaded node holds: the view built by the view block
      with a zero frame, after the load hook has written the node's seven
      properties into it in order. */
  function LoadedState(p: GlassProps, reduceTransparency: bool): (r: ViewState)
    ensures r.props == p && r.reduceTransparency == reduceTransparency
    ensures r.bounds == Rect(0.0, 0.0, 0.0, 0.0) && r.timeline == []
  {
    var s := InitialState(Size(0.0, 0.0), reduceTransparency);
    var s := WithShape(s, p.shape);
    var s := WithAnimationConfig(s, p.animationConfig);
    var s := WithBlurRadius(s, p.blurRadius);
    var s := WithTintColor(s, p.tintColor);
    var s := WithEnableBlur(s, p.enableBlur);
    var s := WithEnableShadow(s, p.enableShadow);
    WithHighlightColor(s, p.highlightColor)
  }

  /** After loading, the view carries exactly the node's properties, keeps the
      backdrop invariant and is idle. */
  lemma LoadedStateMirrorsProps(p: GlassProps, reduceTransparency: bool)
    ensures var s := LoadedState(p, reduceTransparency);
      s.props == p && Consistent(s) && !s.isHighlighted && s.touchStartPoint == None &&
      s.reduceTransparency == reduceTransparency && s.highlightOpacity == 0.0
  {
  }

  /** The backdrop of a freshly loaded node, when there is one, was created by
      the view's own setup with the view's default radius of 10: the node's
      blur radius is written afterwards and never reaches the blur filter. */
  lemma LoadedBackdropKeepsDefaultRadius(p: GlassProps, reduceTransparency: bool)
    requires !reduceTransparency
    ensures p.enableBlur ==> LoadedState(p, reduceTransparency).effectView == Some(EffectView(0, 10.0))
    ensures !p.enableBlur ==> LoadedState(p, reduceTransparency).effectView == None
  {
  }

  class LiquidGlassNode {
    var shape: Shape
    var animationConfig: AnimationConfig
    var blurRadius: real
    var glassTintColor: Color
    var enableBlur: bool
    var enableShadow: bool
    var highlightColor: Color
    var glassView: LiquidGlassView?

    function Props(): GlassProps
      reads this
    {
      GlassProps(shape, animationConfig, blurRadius, glassTintColor, enableBlur, enableShadow, highlightColor)
    }

    /** A loaded view mirrors the node's properties. */
    predicate Valid()
      reads this, glassView
    {
      glassView != null ==> glassView.Props() == Props() && glassView.Valid()
    }

    constructor ()
      ensures Props() == DefaultProps && glassView == null && Valid()
    {
      shape, animationConfig, blurRadius, glassTintColor := Circle, Default, 10.0, White(0.3);
      enableBlur, enableShadow, highlightColor := true, true, White(0.2);
      glassView := null;
    }

    /** The view the node's content goes into; none before loading. */
    function ContentView(): (r: ContentContainer?)
      reads this
      ensures r == null <==> glassView == null
      ensures glassView != null ==> r == glassView.contentView
    {
      if glassView == null then null else glassView.contentView
    }

    /** The view block followed by the load hook. */
    method Load(reduceTransparency: bool)
      requires glassView == null
      modifies this
      ensures Props() == old(Props())
      ensures glassView != null && fresh(glassView)
      ensures glassView.State() == LoadedState(Props(), reduceTransparency)
      ensures Valid()
    {
      var view := new LiquidGlassView(ZeroRect, reduceTransparency);
      glassView := view;
      view.SetShape(shape);
      view.SetAnimationConfig(animationConfig);
      view.SetBlurRadius(blurRadius);
      view.SetTintColor(glassTintColor);
      view.SetEnableBlur(enableBlur);
      view.SetEnableShadow(enableShadow);
      view.SetHighlightColor(highlightColor);
      LoadedStateMirrorsProps(Props(), reduceTransparency);
    }

    method SetShape(v: Shape)
      requires Valid()
      modifies this, glassView
      ensures Props() == old(Props()).(shape := v) && glassView == old(glassView)
      ensures glassView != null ==> glassView.State() == WithShape(old(glassView.State()), v)
      ensures Valid()
    {
      shape := v;
      if glassView != null {
        SettersKeepConsistent(glassView.State(), v, animationConfig, blurRadius, glassTintColor, enableBlur);
        glassView.SetShape(v);
      }
    }

    method SetAnimationConfig(v: AnimationConfig)
      requires Valid()
      modifies this, glassView
      ensures Props() == old(Props()).(animationConfig := v) && glassView == old(glassView)
      ensures glassView != null ==> glassView.State() == WithAnimationConfig(old(glassView.State()), v)
      ensures Valid()
    {
      animationConfig := v;
      if glassView != null {
        SettersKeepConsistent(glassView.State(), shape, v, blurRadius, glassTintColor, enableBlur);
        glassView.SetAnimationConfig(v);
      }
    }

    method SetBlurRadius(v: real)
      requires Valid()
      modifies this, glassView
      ensures Props() == old(Props()).(blurRadius := v) && glassView == old(glassView)
      ensures glassView != null ==> glassView.State() == WithBlurRadius(old(glassView.State()), v)
      ensures Valid()
    {
      blurRadius := v;
      if glassView != null {
        SettersKeepConsistent(glassView.State(), shape, animationConfig, v, glassTintColor, enableBlur);
        glassView.SetBlurRadius(v);
      }
    }

    method SetGlassTintColor(v: Color)
      requires Valid()
      modifies this, glassView
      ensures Props() == old(Props()).(tintColor := v) && glassView == old(glassView)
      ensures glassView != null ==> glassView.State() == WithTintColor(old(glassView.State()), v)
      ensures Valid()
    {
      glassTintColor := v;
      if glassView != null {
        SettersKeepConsistent(glassView.State(), shape, animationConfig, blurRadius, v, enableBlur);
        glassView.SetTintColor(v);
      }
    }

    method SetEnableBlur(v: bool)
      requires Valid()
      modifies this, glassView
      ensures Props() == old(Props()).(enableBlur := v) && glassView == old(glassView)
      ensures glassView != null ==> glassView.State() == WithEnableBlur(old(glassView.State()), v)
      ensures Valid()
    {
      enableBlur := v;
      if glassView != null {
        SettersKeepConsistent(glassView.State(), shape, animationConfig, blurRadius, glassTintColor, v);
        glassView.SetEnableBlur(v);
      }
    }

    method SetEnableShadow(v: bool)
      requires Valid()
      modifies this, glassView
      ensures Props() == old(Props()).(enableShadow := v) && glassView == old(glassView)
      ensures glassView != null ==> glassView.State() == WithEnableShadow(old(glassView.State()), v)
      ensures Valid()
    {
      enableShadow := v;
      if glassView != null {
        SettersKeepConsistent(glassView.State(), shape, animationConfig, blurRadius, glassTintColor, v);
        glassView.SetEnableShadow(v);
      }
    }

    method SetHighlightColor(v: Color)
      requires Valid()
      modifies this, glassView
      ensures Props() == old(Props()).(highlightColor := v) && glassView == old(glassView)
      ensures glassView != null ==> glassView.State() == WithHighlightColor(old(glassView.State()), v)
      ensures Valid()
    {
      highlightColor := v;
      if glassView != null {
        SettersKeepConsistent(glassView.State(), shape, animationConfig, blurRadius, v, enableBlur);
        glassView.SetHighlightColor(v);
      }
    }

    method AnimateHighlight(highlighted: bool, point: Option<Point>)
      requires Valid()
      modifies glassView
      ensures glassView != null ==> glassView.State() == Highlight(old(glassView.State()), highlighted, point)
      ensures glassView == old(glassView) && Valid()
    {
      if glassView != null {
        glassView.AnimateHighlight(highlighted, point);
      }
    }

    method AnimateBounce(completion: bool)
      requires Valid()
      modifies glassView
      ensures glassView != null ==> glassView.State() == Bounce(old(glassView.State()), completion)
      ensures glassView == old(glassView) && Valid()
    {
      if glassView != null {
        glassView.AnimateBounce(completion);
      }
    }

    method AnimateStretch(direction: Point, completion: bool)
      requires Valid()
      modifies glassView
      ensures glassView != null ==> glassView.State() == Stretch(old(glassView.State()), direction, completion)
      ensures glassView == old(glassView) && Valid()
    {
      if glassView != null {
        glassView.AnimateStretch(direction, completion);
      }
    }

    method AnimateSelection(selected: bool)
      requires Valid()
      modifies glassView
      ensures glassView != null ==> glassView.State() == Selection(old(glassView.State()), selected)
      ensures glassView == old(glassView) && Valid()
    {
      if glassView != null {
        glassView.AnimateSelection(selected);
      }
    }
  }

  class LiquidGlassButtonNode {
    var shape: Shape
    var animationConfig: AnimationConfig
    var pressed: Option<Handler>
    var buttonView: LiquidGlassButton?
    /** Every invocation of the `pressed` closure, oldest first. */
    var pressedCalls: seq<Handler>

    predicate Valid()
      reads this, buttonView, if buttonView == null then {} else {buttonView.glassView}
    {
      buttonView != null ==>
        buttonView.glassView.shape == shape && buttonView.glassView.animationConfig == animationConfig &&
        buttonView.glassView.Valid()
    }

    constructor ()
      ensures shape == Circle && animationConfig == Default && pressed == None
      ensures buttonView == null && pressedCalls == [] && Valid()
    {
      shape, animationConfig, pressed := Circle, Default, None;
      buttonView, pressedCalls := null, [];
    }

    function ContentView(): (r: ContentContainer?)
      reads this
      ensures r == null <==> buttonView == null
      ensures buttonView != null ==> r == buttonView.glassView.contentView
    {
      if buttonView == null then null else buttonView.ContentView()
    }

    /** The view block (which also registers the touch-up-inside target)
        followed by the load hook. */
    method Load(reduceTransparency: bool)
      requires buttonView == null
      modifies this
      ensures shape == old(shape) && animationConfig == old(animationConfig) && pressed == old(pressed)
      ensures pressedCalls == old(pressedCalls)
      ensures buttonView != null && fresh(buttonView) && fresh(buttonView.glassView)
      ensures buttonView.glassView.State() ==
        WithAnimationConfig(WithShape(InitialState(Size(0.0, 0.0), reduceTransparency), shape), animationConfig)
      ensures Valid()
    {
      var view := new LiquidGlassButton(ZeroRect, reduceTransparency);
      buttonView := view;
      view.SetShape(shape);
      view.SetAnimationConfig(animationConfig);
      SettersKeepConsistent(InitialState(Size(0.0, 0.0), reduceTransparency), shape, animationConfig, 0.0, White(0.0), false);
      SettersKeepConsistent(WithShape(InitialState(Size(0.0, 0.0), reduceTransparency), shape), shape, animationConfig, 0.0, White(0.0), false);
    }

    method SetShape(v: Shape)
      requires Valid()
      modifies this, if buttonView == null then {} else {buttonView.glassView}
      ensures shape == v && animationConfig == old(animationConfig) && pressed == old(pressed)
      ensures buttonView == old(buttonView) && pressedCalls == old(pressedCalls)
      ensures buttonView != null ==>
        buttonView.glassView.State() == WithShape(old(buttonView.glassView.State()), v)
      ensures Valid()
    {
      shape := v;
      if buttonView != null {
        SettersKeepConsistent(buttonView.glassView.State(), v, animationConfig, 0.0, White(0.0), false);
        buttonView.SetShape(v);
      }
    }

    method SetAnimationConfig(v: AnimationConfig)
      requires Valid()
      modifies this, if buttonView == null then {} else {buttonView.glassView}
      ensures animationConfig == v && shape == old(shape) && pressed == old(pressed)
      ensures buttonView == old(buttonView) && pressedCalls == old(pressedCalls)
      ensures buttonView != null ==>
        buttonView.glassView.State() == WithAnimationConfig(old(buttonView.glassView.State()), v)
      ensures Valid()
    {
      animationConfig := v;
      if buttonView != null {
        SettersKeepConsistent(buttonView.glassView.State(), shape, v, 0.0, White(0.0), false);
        buttonView.SetAnimationConfig(v);
      }
    }

    method SetPressed(handler: Option<Handler>)
      requires Valid()
      modifies this
      ensures pressed == handler && shape == old(shape) && animationConfig == old(animationConfig)
      ensures buttonView == old(buttonView) && pressedCalls == old(pressedCalls)
      ensures Valid()
    {
      pressed := handler;
    }

    /** The touch-up-inside action: runs `pressed` once if one is set. */
    method ButtonPressed()
      requires Valid()
      modifies this
      ensures pressedCalls == old(pressedCalls) + (if pressed.Some? then [pressed.value] else [])
      ensures shape == old(shape) && animationConfig == old(animationConfig) && pressed == old(pressed)
      ensures buttonView == old(buttonView)
      ensures Valid()
    {
      if pressed.Some? {
        pressedCalls := pressedCalls + [pressed.value];
      }
    }

    method AnimateBounce(completion: bool)
      requires Valid()
      modifies if buttonView == null then {} else {buttonView.glassView}
      ensures buttonView != null ==>
        buttonView.glassView.State() == Bounce(old(buttonView.glassView.State()), completion)
      ensures Valid()
    {
      if buttonView != null {
        buttonView.glassView.AnimateBounce(completion);
      }
    }
  }
}

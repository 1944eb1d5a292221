/** The tab bar: the size arithmetic of a tab's rendered images, the layout
    that spreads the visible tabs evenly and records their frames, the badge
    bookkeeping, and the shared lens that follows the selected tab. */
module TabBar {
  import opened Geometry
  import opened TabLens

  /** A tab as the bar sees it. Title widths are measured by the text
      system, once in the horizontal layout's font and once in the vertical
      one; image sizes are those of the images as supplied. */
  datatype TabItem = TabItem(
    image: Option<Size>,
    selectedImage: Option<Size>,
    titleWidthHorizontal: real,
    titleWidthVertical: real,
    ringSelection: bool,
    hasAnimation: bool,
    badgeValue: Option<string>)

  function TitleWidth(item: TabItem, horizontal: bool): real {
    if horizontal then item.titleWidthHorizontal else item.titleWidthVertical
  }

  /** The size an image is drawn at: shrunk to 80% and floored in the
      horizontal layout, as supplied in the vertical one, zero without one. */
  function DrawnImageSize(image: Option<Size>, horizontal: bool): (r: Size)
    ensures image.None? ==> r == Size(0.0, 0.0)
    ensures image.Some? && !horizontal ==> r == image.value
    ensures image.Some? && horizontal ==>
      r.width <= image.value.width * 0.8 < r.width + 1.0 && r.height <= image.value.height * 0.8 < r.height + 1.0
  {
    match image
    case None => Size(0.0, 0.0)
    case Some(size) =>
      if horizontal then Size(Floor(size.width * 0.8), Floor(size.height * 0.8)) else size
  }

  /** The measurements of one rendered tab image: its canvas size and the
      width the lens should hug. */
  datatype ItemMetrics = ItemMetrics(size: Size, contentWidth: real)

  const HorizontalSpacing: real := 4.0

  /** The size arithmetic of a rendered tab image. Horizontally the title
      sits beside the image on a 34pt canvas and the whole canvas is content;
      vertically the title sits below the image on a 45pt canvas and only the
      image counts as content. A centred bar ignores the title. */
  function ItemImage(image: Option<Size>, titleWidth: real, horizontal: bool, centered: bool): (r: ItemMetrics)
    ensures r.size.height == (if horizontal then 34.0 else 45.0)
    ensures 1.0 <= r.size.width
    ensures horizontal ==> r.contentWidth == r.size.width
    ensures !horizontal ==> r.contentWidth == DrawnImageSize(image, false).width
    ensures !centered && horizontal ==>
      titleWidth + HorizontalSpacing + DrawnImageSize(image, true).width <= r.size.width
    ensures !centered && !horizontal ==>
      titleWidth <= r.size.width && DrawnImageSize(image, false).width <= r.size.width
    ensures centered ==> r.size.width == Max(1.0, DrawnImageSize(image, horizontal).width)
    ensures 0.0 <= titleWidth ==> DrawnImageSize(image, horizontal).width <= r.size.width
  {
    var imageSize := DrawnImageSize(image, horizontal);
    if horizontal then
      var width := Max(1.0, if centered then imageSize.width else Ceil(titleWidth) + HorizontalSpacing + imageSize.width);
      ItemMetrics(Size(width, 34.0), width)
    else
      var width := Max(Max(1.0, if centered then imageSize.width else Max(Ceil(titleWidth), imageSize.width)), 1.0);
      ItemMetrics(Size(width, 45.0), imageSize.width)
  }

  /** What a tab node currently shows: the sizes of its title image and
      icon image, and its content width. */
  datatype Rendition = Rendition(textImageSize: Size, imageSize: Size, contentWidth: real)

  /** The icon image and its content width for a tab. An animated selected
      tab shows an empty image (its sticker plays instead); a ring tab, where
      ring selection is honoured, shows its image as supplied. */
  function IconImage(item: TabItem, selected: bool, horizontal: bool, centered: bool, honourRing: bool): (r: ItemMetrics)
    ensures selected && item.hasAnimation ==> r.size == Size(0.0, 0.0) && r.contentWidth == 0.0
    ensures var image := if selected then item.selectedImage else item.image;
      !(selected && item.hasAnimation) && honourRing && item.ringSelection ==>
        r.size == image.GetOr(Size(0.0, 0.0)) && r.contentWidth == (if image.Some? then image.value.width else 0.0)
    ensures !(selected && item.hasAnimation) && !(honourRing && item.ringSelection) ==>
      1.0 <= r.size.width && r.size.height == (if horizontal then 34.0 else 45.0)
  {
    var image := if selected then item.selectedImage else item.image;
    if selected && item.hasAnimation then ItemMetrics(Size(0.0, 0.0), 0.0)
    else if honourRing && item.ringSelection then
      ItemMetrics(image.GetOr(Size(0.0, 0.0)), if image.Some? then image.value.width else 0.0)
    else ItemImage(image, TitleWidth(item, horizontal), horizontal, centered)
  }

  /** Renders a tab: the title image from the (selected) image and title, the
      icon image as above, and the larger of the two content widths. The
      initial load does not honour ring selection; later refreshes do. */
  function Render(item: TabItem, selected: bool, horizontal: bool, centered: bool, honourRing: bool): (r: Rendition)
    ensures var text := ItemImage(if selected then item.selectedImage else item.image, TitleWidth(item, horizontal), horizontal, centered);
      var icon := IconImage(item, selected, horizontal, centered, honourRing);
      && r.textImageSize == text.size && r.imageSize == icon.size
      && text.contentWidth <= r.contentWidth && icon.contentWidth <= r.contentWidth
      && (r.contentWidth == text.contentWidth || r.contentWidth == icon.contentWidth)
  {
    var text := ItemImage(if selected then item.selectedImage else item.image, TitleWidth(item, horizontal), horizontal, centered);
    var icon := IconImage(item, selected, horizontal, centered, honourRing);
    Rendition(text.size, icon.size, Max(text.contentWidth, icon.contentWidth))
  }

  predicate NonNegative(size: Size) { 0.0 <= size.width && 0.0 <= size.height }

  predicate ImagesNonNegative(item: TabItem) {
    (item.image.Some? ==> NonNegative(item.image.value)) &&
    (item.selectedImage.Some? ==> NonNegative(item.selectedImage.value))
  }

  /** With real (non-negative) images every content width is non-negative,
      and horizontally it is at least one point, so a lens is always at least
      as wide as its padding. */
  lemma ContentWidthNonNegative(item: TabItem, selected: bool, horizontal: bool, centered: bool, honourRing: bool)
    requires ImagesNonNegative(item)
    ensures 0.0 <= Render(item, selected, horizontal, centered, honourRing).contentWidth
    ensures horizontal ==> 1.0 <= Render(item, selected, horizontal, centered, honourRing).contentWidth
    ensures forall f: Rect {:trigger LensFrame(f, Some(Render(item, selected, horizontal, centered, honourRing).contentWidth))} ::
      2.0 * LensPadding <= LensFrame(f, Some(Render(item, selected, horizontal, centered, honourRing).contentWidth)).w
  {
    var image := if selected then item.selectedImage else item.image;
    var text := ItemImage(image, TitleWidth(item, horizontal), horizontal, centered);
    if !horizontal {
      assert 0.0 <= DrawnImageSize(image, false).width;
      assert 0.0 <= text.contentWidth;
    }
  }

  /** Badge bookkeeping of one tab: the latest value, the value last applied
      to the badge nodes, the badge text and whether the badge is hidden. */
  datatype Container = Container(
    rendition: Rendition,
    isSelected: bool,
    frame: Rect,
    alpha: real,
    interactive: bool,
    badgeValue: string,
    appliedBadgeValue: Option<string>,
    badgeText: Option<string>,
    badgeHidden: bool)

  /** A freshly loaded tab: rendered, at the zero frame, visible and
      interactive, with its item's badge pending. */
  function NewContainer(item: TabItem, selected: bool, horizontal: bool, centered: bool): (r: Container)
    ensures r.rendition == Render(item, selected, horizontal, centered, false) && r.isSelected == selected
    ensures r.badgeValue == item.badgeValue.GetOr("") && r.appliedBadgeValue == None && r.interactive
  {
    Container(Render(item, selected, horizontal, centered, false), selected, ZeroRect, 1.0, true,
              item.badgeValue.GetOr(""), None, None, false)
  }

  /** The applied badge is on screen: hidden exactly when it is empty, and
      otherwise showing its text. */
  predicate BadgeShown(c: Container) {
    c.appliedBadgeValue.Some? ==>
      (c.badgeHidden <==> c.appliedBadgeValue.value == "") &&
      (c.appliedBadgeValue.value != "" ==> c.badgeText == c.appliedBadgeValue)
  }

  /** Applies a pending badge value; an already applied one is left alone. */
  function ApplyBadge(c: Container): (r: Container)
    ensures r.appliedBadgeValue == Some(c.badgeValue)
    ensures c.appliedBadgeValue == Some(c.badgeValue) ==> r == c
    ensures c.appliedBadgeValue != Some(c.badgeValue) ==> BadgeShown(r)
    ensures BadgeShown(c) ==> BadgeShown(r)
    ensures r == c.(appliedBadgeValue := r.appliedBadgeValue, badgeText := r.badgeText, badgeHidden := r.badgeHidden)
  {
    if Some(c.badgeValue) != c.appliedBadgeValue then
      if c.badgeValue != "" then
        c.(appliedBadgeValue := Some(c.badgeValue), badgeText := Some(c.badgeValue), badgeHidden := false)
      else
        c.(appliedBadgeValue := Some(c.badgeValue), badgeHidden := true)
    else c
  }

  /** The width of the badge background: a circle for a one-element text,
      otherwise the measured text plus 11 points, never narrower than 18. */
  function BadgeBackgroundWidth(text: string, measuredWidth: real): (r: real)
    ensures 18.0 <= r
    ensures |text| == 1 ==> r == 18.0
    ensures |text| != 1 ==> measuredWidth + 11.0 <= r
  {
    if |text| == 1 then 18.0 else Max(18.0, measuredWidth + 10.0 + 1.0)
  }

  /** The part of a layout request the bar uses: its size, the left inset
      (non-zero means the horizontal layout), the right additional side inset
      and the bottom inset. */
  datatype LayoutParams = LayoutParams(size: Size, leftInset: real, additionalRightInset: real, bottomInset: real)

  function Range(n: nat): (r: seq<nat>)
    ensures |r| == n && forall k :: 0 <= k < n ==> r[k] == k
  {
    if n == 0 then [] else Range(n - 1) + [n - 1]
  }

  /** Which containers are laid out, by index: all of them, except that with
      exactly four tabs and a right side inset the second (the calls tab) is
      dropped. */
  function VisibleTabs(count: nat, additionalRightInset: real): (r: seq<nat>)
    ensures count == 4 && additionalRightInset > 0.0 ==> r == [0, 2, 3]
    ensures !(count == 4 && additionalRightInset > 0.0) ==> r == Range(count)
    ensures forall k :: 0 <= k < |r| ==> r[k] < count
    ensures forall j, k :: 0 <= j < k < |r| ==> r[j] < r[k]
  {
    if count == 4 && additionalRightInset > 0.0 then [0, 2, 3] else Range(count)
  }

  /** The width the tabs share: the bar's width less a positive right inset. */
  function LayoutWidth(p: LayoutParams): (r: real)
    ensures r <= p.size.width
    ensures 0.0 < p.additionalRightInset ==> r == p.size.width - p.additionalRightInset
    ensures p.additionalRightInset <= 0.0 ==> r == p.size.width
  {
    if p.additionalRightInset > 0.0 then p.size.width - p.additionalRightInset else p.size.width
  }

  /** The frame of the tab at visible position k of count: the width is cut
      into count equal slots, and the node, at its title image's size, is
      centred in slot k with its origin floored, three points from the top. */
  function NodeFrame(k: nat, count: nat, width: real, nodeSize: Size): (r: Rect)
    requires 0 < count
    ensures r.y == 3.0 && r.w == nodeSize.width && r.h == nodeSize.height
    ensures var centre := (k as real + 0.5) * (width / count as real);
      centre - 1.0 < MidX(r) <= centre
  {
    var distance := width / count as real;
    var internalWidth := distance * (count - 1) as real;
    var leftNodeOriginX := (width - internalWidth) / 2.0;
    assert leftNodeOriginX == distance / 2.0 by {
      assert distance * count as real == width;
    }
    Rect(Floor(leftNodeOriginX + k as real * distance - nodeSize.width / 2.0), 3.0, nodeSize.width, nodeSize.height)
  }

  /** Neighbouring visible tabs are one slot apart, up to the flooring. */
  lemma SlotsEvenlySpaced(k: nat, count: nat, width: real, a: Size, b: Size)
    requires k + 1 < count
    ensures var d := width / count as real;
      d - 1.0 < MidX(NodeFrame(k + 1, count, width, b)) - MidX(NodeFrame(k, count, width, a)) < d + 1.0
  {
    var d := width / count as real;
    assert (k as real + 1.5) * d == (k as real + 0.5) * d + d;
  }

  /** The record of a tap reported to the host. */
  datatype ItemSelection = ItemSelection(index: nat, longTap: bool)

  /** Everything the tab bar holds; `lens` is None until the bar loads. */
  datatype BarState = BarState(
    items: seq<TabItem>,
    containers: seq<Container>,
    selectedIndex: Option<nat>,
    horizontal: bool,
    centered: bool,
    validLayout: Option<LayoutParams>,
    tabItemFrames: map<nat, Rect>,
    lens: Option<LensState>,
    selections: seq<ItemSelection>)

  /** The selected index names a tab; the bar traps on a selected index past
      its tabs once a frame was ever recorded under it. */
  predicate SelectionInRange(s: BarState) {
    s.selectedIndex.Some? ==> s.selectedIndex.value < |s.containers|
  }

  /** What no rendering or layout step changes. */
  predicate Frozen(s: BarState, r: BarState) {
    && r.items == s.items && r.selectedIndex == s.selectedIndex && |r.containers| == |s.containers|
    && r.centered == s.centered && r.selections == s.selections && r.lens.Some? == s.lens.Some?
  }

  /** Container c shows item as rendered for the given selection and
      orientation, with ring selection honoured. */
  predicate Shows(c: Container, item: TabItem, selected: bool, horizontal: bool, centered: bool) {
    c.rendition == Render(item, selected, horizontal, centered, true) && c.isSelected == selected
  }

  /** d shows what c showed: the same rendition and selection mark. */
  predicate SameLook(d: Container, c: Container) {
    d.rendition == c.rendition && d.isSelected == c.isSelected
  }

  /** Every tab of r other than `skip` shows what it showed in s or, when
      the orientation flipped between them, is re-rendered for its
      selection in the new orientation. */
  predicate KeepsLooks(s: BarState, r: BarState, skip: int) {
    forall k :: 0 <= k < |r.containers| && k < |s.containers| && k != skip ==>
      if r.horizontal != s.horizontal && k < |s.items|
      then Shows(r.containers[k], s.items[k], s.selectedIndex == Some(k), r.horizontal, s.centered)
      else SameLook(r.containers[k], s.containers[k])
  }

  /** The tabBarItems setter: one fresh container per item. */
  function Reload(s: BarState, items: seq<TabItem>): (r: BarState)
    ensures |r.containers| == |items|
    ensures forall i :: 0 <= i < |items| ==>
      r.containers[i] == NewContainer(items[i], s.selectedIndex == Some(i), s.horizontal, s.centered)
    ensures r == s.(items := items, containers := r.containers)
  {
    s.(items := items, containers := seq(|items|, i requires 0 <= i < |items| =>
      NewContainer(items[i], s.selectedIndex == Some(i), s.horizontal, s.centered)))
  }

  /** Tab i re-rendered for its selection in the bar's orientation. */
  function Rerendered(s: BarState, i: nat): (r: BarState)
    requires SelectionInRange(s) && i < |s.containers| && i < |s.items|
    ensures r == s.(containers := s.containers[i := s.containers[i].(
        rendition := Render(s.items[i], s.selectedIndex == Some(i), s.horizontal, s.centered, true),
        isSelected := s.selectedIndex == Some(i))])
    ensures Frozen(s, r) && SelectionInRange(r)
    ensures Shows(r.containers[i], s.items[i], s.selectedIndex == Some(i), r.horizontal, s.centered)
    ensures KeepsLooks(s, r, i)
  {
    s.(containers := s.containers[i := s.containers[i].(
        rendition := Render(s.items[i], s.selectedIndex == Some(i), s.horizontal, s.centered, true),
        isSelected := s.selectedIndex == Some(i))])
  }

  /** updateNodeImage: re-renders one tab and, when its image sizes changed
      and layout is requested, lays the bar out again with the last layout. */
  function NodeImage(s: BarState, i: nat, layout: bool): (r: BarState)
    requires SelectionInRange(s)
    ensures Frozen(s, r) && SelectionInRange(r) && r.validLayout == s.validLayout
    ensures !(i < |s.containers| && i < |s.items|) ==> r == s
    ensures i < |s.containers| && i < |s.items| ==>
      Shows(r.containers[i], s.items[i], s.selectedIndex == Some(i), r.horizontal, s.centered)
    ensures r.horizontal != s.horizontal ==>
      layout && s.validLayout.Some? && r.horizontal == (s.validLayout.value.leftInset != 0.0)
    ensures KeepsLooks(s, r, i)
    ensures i < |s.containers| && i < |s.items| && !layout ==> r == Rerendered(s, i)
    decreases if layout then 2 else 0, 0
  {
    if i < |s.containers| && i < |s.items| then
      var c := s.containers[i];
      var s' := Rerendered(s, i);
      var rendition := s'.containers[i].rendition;
      if (c.rendition.imageSize != rendition.imageSize || c.rendition.textImageSize != rendition.textImageSize)
         && layout && s.validLayout.Some?
      then
        var r := Layout(s', s.validLayout.value);
        LooksCompose(s, s', r, i);
        r
      else s'
    else s
  }

  /** A step that keeps the orientation and keeps every tab but `skip`,
      followed by one that keeps or re-renders every tab, keeps or
      re-renders every tab but `skip`. */
  lemma LooksCompose(a: BarState, b: BarState, c: BarState, skip: int)
    requires KeepsLooks(a, b, skip) && KeepsLooks(b, c, -1)
    requires b.horizontal == a.horizontal && b.items == a.items && b.selectedIndex == a.selectedIndex
    requires b.centered == a.centered && |b.containers| == |a.containers|
    ensures KeepsLooks(a, c, skip)
  {
  }

  /** updateNodeImage(i, layout: false) for every tab in turn. */
  function RenderAll(s: BarState, n: nat): (r: BarState)
    requires SelectionInRange(s)
    ensures Frozen(s, r) && SelectionInRange(r)
    ensures r == s.(containers := r.containers)
    ensures forall k :: 0 <= k < |r.containers| ==>
      if k < n && k < |s.items|
      then Shows(r.containers[k], s.items[k], s.selectedIndex == Some(k), s.horizontal, s.centered)
      else r.containers[k] == s.containers[k]
    decreases 0, n + 1
  {
    if n == 0 then s else NodeImage(RenderAll(s, n - 1), n - 1, false)
  }

  /** Shows or hides the calls tab of a four-tab bar. */
  function ShowCallsTab(cs: seq<Container>, p: LayoutParams): (r: seq<Container>)
    ensures |r| == |cs|
    ensures |cs| == 4 && p.additionalRightInset > 0.0 ==> r[1].alpha == 0.0 && !r[1].interactive
    ensures |cs| == 4 && p.additionalRightInset <= 0.0 ==> r[1].alpha == 1.0 && r[1].interactive
    ensures forall k :: 0 <= k < |cs| && (k != 1 || |cs| != 4) ==> r[k] == cs[k]
    ensures forall k :: 0 <= k < |cs| ==> SameLook(r[k], cs[k])
  {
    if |cs| == 4 then
      if p.additionalRightInset > 0.0 then cs[1 := cs[1].(alpha := 0.0, interactive := false)]
      else cs[1 := cs[1].(alpha := 1.0, interactive := true)]
    else cs
  }

  predicate IndicesBelow(vis: seq<nat>, n: nat) {
    forall k :: 0 <= k < |vis| ==> vis[k] < n
  }

  predicate Increasing(vis: seq<nat>) {
    forall j, k :: 0 <= j < k < |vis| ==> vis[j] < vis[k]
  }

  /** The frame of visible position k, at its tab's title image size. */
  function SlotFrame(cs: seq<Container>, vis: seq<nat>, k: nat, width: real): (r: Rect)
    requires k < |vis| && IndicesBelow(vis, |cs|)
    ensures r.y == 3.0 && r.w == cs[vis[k]].rendition.textImageSize.width && r.h == cs[vis[k]].rendition.textImageSize.height
  {
    NodeFrame(k, |vis|, width, cs[vis[k]].rendition.textImageSize)
  }

  /** The containers after the first n steps of the layout loop: each step
      frames the tab at its visible position and applies its badge. */
  function PlaceTabs(cs: seq<Container>, vis: seq<nat>, n: nat, width: real): (r: seq<Container>)
    requires n <= |vis| && IndicesBelow(vis, |cs|)
    ensures |r| == |cs| && forall m :: 0 <= m < |cs| ==> r[m].rendition == cs[m].rendition
  {
    if n == 0 then cs
    else
      var placed := PlaceTabs(cs, vis, n - 1, width);
      var c := placed[vis[n - 1]];
      placed[vis[n - 1] := ApplyBadge(c.(frame := NodeFrame(n - 1, |vis|, width, c.rendition.textImageSize)))]
  }

  /** The frame table after the first n steps of the layout loop: each step
      records the frame of visible position k under key k. */
  function RecordFrames(frames: map<nat, Rect>, cs: seq<Container>, vis: seq<nat>, n: nat, width: real): (r: map<nat, Rect>)
    requires n <= |vis| && IndicesBelow(vis, |cs|)
    ensures forall key :: key in frames ==> key in r
    ensures 0 < n ==> n - 1 in r && r[n - 1] == SlotFrame(cs, vis, n - 1, width)
  {
    if n == 0 then frames else RecordFrames(frames, cs, vis, n - 1, width)[n - 1 := SlotFrame(cs, vis, n - 1, width)]
  }

  /** The lens's first appearance: while it is still transparent it is put
      over the selected tab and faded in; once visible, layout leaves it. */
  function ShowLens(s: BarState): (r: BarState)
    requires SelectionInRange(s)
    ensures r == s.(lens := r.lens)
    ensures s.lens.Some? && s.lens.value.alpha != 0.0 ==> r == s
    ensures s.lens.Some? && s.lens.value.alpha == 0.0 && s.selectedIndex.Some? && s.selectedIndex.value in s.tabItemFrames ==>
      r.lens == Some(s.lens.value.(
        frame := LensFrame(s.tabItemFrames[s.selectedIndex.value], Some(s.containers[s.selectedIndex.value].rendition.contentWidth)),
        alpha := 1.0))
    ensures !(s.selectedIndex.Some? && s.selectedIndex.value in s.tabItemFrames) ==> r == s
  {
    if s.lens.Some? && s.selectedIndex.Some? && s.selectedIndex.value in s.tabItemFrames then
      var index := s.selectedIndex.value;
      var lensFrame := LensFrame(s.tabItemFrames[index], Some(s.containers[index].rendition.contentWidth));
      if s.lens.value.alpha == 0.0 then s.(lens := Some(s.lens.value.(frame := lensFrame, alpha := 1.0)))
      else s
    else s
  }

  /** The second half of updateLayout, once the tabs are rendered for the
      orientation: the calls tab is shown or hidden, the visible tabs are
      placed and the lens is shown. A bar without tabs is left alone. */
  function Arrange(s: BarState, p: LayoutParams): (r: BarState)
    requires SelectionInRange(s)
    ensures Frozen(s, r) && SelectionInRange(r) && r.validLayout == s.validLayout
    ensures r.horizontal == s.horizontal
    ensures forall k :: 0 <= k < |r.containers| ==> SameLook(r.containers[k], s.containers[k])
    ensures |s.containers| == 0 ==> r == s
  {
    if |s.containers| == 0 then s
    else
      var cs := ShowCallsTab(s.containers, p);
      var vis := VisibleTabs(|cs|, p.additionalRightInset);
      var width := LayoutWidth(p);
      PlaceTabsKeepsLooks(cs, vis, |vis|, width);
      ShowLens(s.(containers := PlaceTabs(cs, vis, |vis|, width),
                  tabItemFrames := RecordFrames(s.tabItemFrames, cs, vis, |vis|, width)))
  }

  /** The placement loop changes no tab's rendition or selection mark. */
  lemma {:induction false} PlaceTabsKeepsLooks(cs: seq<Container>, vis: seq<nat>, n: nat, width: real)
    requires n <= |vis| && IndicesBelow(vis, |cs|)
    ensures var r := PlaceTabs(cs, vis, n, width);
      forall m :: 0 <= m < |cs| ==> SameLook(r[m], cs[m])
  {
    if n > 0 {
      PlaceTabsKeepsLooks(cs, vis, n - 1, width);
    }
  }

  /** updateLayout: records the layout, re-renders every tab when the
      orientation flips, then arranges the tabs. */
  function Layout(s: BarState, p: LayoutParams): (r: BarState)
    requires SelectionInRange(s)
    ensures Frozen(s, r) && SelectionInRange(r) && r.validLayout == Some(p)
    ensures r.horizontal == (p.leftInset != 0.0)
    ensures s.horizontal == (p.leftInset != 0.0) ==> r == Arrange(s.(validLayout := Some(p)), p)
    ensures s.horizontal != (p.leftInset != 0.0) ==>
      r == Arrange(RenderAll(s.(validLayout := Some(p), horizontal := p.leftInset != 0.0), |s.items|), p)
    ensures KeepsLooks(s, r, -1)
    decreases 1, 0
  {
    var s1 := s.(validLayout := Some(p));
    var horizontal := p.leftInset != 0.0;
    var s2 := if s1.horizontal != horizontal then RenderAll(s1.(horizontal := horizontal), |s1.items|) else s1;
    Arrange(s2, p)
  }

  /** The selectedIndex setter: when the selection changes, the old and the
      new tab are re-rendered, each with a relayout if its size changed. */
  function Select(s: BarState, v: Option<nat>): (r: BarState)
    requires SelectionInRange(s) && (v.Some? ==> v.value < |s.containers|)
    ensures r.selectedIndex == v && SelectionInRange(r) && r.validLayout == s.validLayout
    ensures r.items == s.items && |r.containers| == |s.containers| && r.selections == s.selections
    ensures r.lens.Some? == s.lens.Some?
    ensures v == s.selectedIndex ==> r == s
    ensures v != s.selectedIndex && v.Some? && v.value < |s.items| ==>
      Shows(r.containers[v.value], s.items[v.value], true, r.horizontal, s.centered)
    ensures v != s.selectedIndex && s.selectedIndex.Some? && s.selectedIndex.value < |s.items| ==>
      Shows(r.containers[s.selectedIndex.value], s.items[s.selectedIndex.value], false, r.horizontal, s.centered)
    ensures forall k :: 0 <= k < |r.containers| && Some(k) != v && Some(k) != s.selectedIndex ==>
      if r.horizontal != s.horizontal && k < |s.items|
      then Shows(r.containers[k], s.items[k], false, r.horizontal, s.centered)
      else SameLook(r.containers[k], s.containers[k])
  {
    var s1 := s.(selectedIndex := v);
    if v != s.selectedIndex then
      var s2 := if s.selectedIndex.Some? then NodeImage(s1, s.selectedIndex.value, true) else s1;
      var r := if v.Some? then NodeImage(s2, v.value, true) else s2;
      ReselectLooks(s, v, s2, r);
      r
    else s1
  }

  /** The two re-renders of the selectedIndex setter: the old tab is shown
      unselected, the new one selected, and any other tab keeps its look
      unless a relayout flipped the orientation and re-rendered it. */
  lemma ReselectLooks(s: BarState, v: Option<nat>, s2: BarState, r: BarState)
    requires SelectionInRange(s) && (v.Some? ==> v.value < |s.containers|) && v != s.selectedIndex
    requires s2 == if s.selectedIndex.Some? then NodeImage(s.(selectedIndex := v), s.selectedIndex.value, true) else s.(selectedIndex := v)
    requires SelectionInRange(s2)
    requires r == if v.Some? then NodeImage(s2, v.value, true) else s2
    ensures v.Some? && v.value < |s.items| ==>
      Shows(r.containers[v.value], s.items[v.value], true, r.horizontal, s.centered)
    ensures s.selectedIndex.Some? && s.selectedIndex.value < |s.items| ==>
      Shows(r.containers[s.selectedIndex.value], s.items[s.selectedIndex.value], false, r.horizontal, s.centered)
    ensures |r.containers| == |s.containers|
    ensures forall k :: 0 <= k < |r.containers| && Some(k) != v && Some(k) != s.selectedIndex ==>
      if r.horizontal != s.horizontal && k < |s.items|
      then Shows(r.containers[k], s.items[k], false, r.horizontal, s.centered)
      else SameLook(r.containers[k], s.containers[k])
  {
    assert s2.items == s.items && s2.selectedIndex == v && s2.centered == s.centered && |s2.containers| == |s.containers|;
    assert s2.validLayout == s.validLayout;
    assert r.items == s.items && r.selectedIndex == v && r.centered == s.centered && |r.containers| == |s.containers|;
    // A relayout sets the orientation from the one recorded layout, so at
    // most one of the two steps flips it.
    assert s2.horizontal != s.horizontal ==> r.horizontal == s2.horizontal;
    if s.selectedIndex.Some? && s.selectedIndex.value < |s.items| {
      var o := s.selectedIndex.value;
      assert Shows(s2.containers[o], s.items[o], false, s2.horizontal, s.centered);
      if v.Some? {
        RenderStepKeepsShown(s2, v.value, r, o, false);
      }
    }
    forall k | 0 <= k < |r.containers| && Some(k) != v && Some(k) != s.selectedIndex
      ensures if r.horizontal != s.horizontal && k < |s.items|
              then Shows(r.containers[k], s.items[k], false, r.horizontal, s.centered)
              else SameLook(r.containers[k], s.containers[k])
    {
      if s2.horizontal != s.horizontal && k < |s.items| {
        assert Shows(s2.containers[k], s.items[k], false, s2.horizontal, s.centered);
        if v.Some? {
          RenderStepKeepsShown(s2, v.value, r, k, false);
        }
      } else {
        assert SameLook(s2.containers[k], s.containers[k]);
      }
    }
  }

  /** A re-render of tab i with layout keeps how any other tab k is shown. */
  lemma RenderStepKeepsShown(a: BarState, i: nat, b: BarState, k: nat, selected: bool)
    requires SelectionInRange(a) && b == NodeImage(a, i, true)
    requires k != i && k < |a.containers| && k < |a.items| && (a.selectedIndex == Some(k)) == selected
    requires Shows(a.containers[k], a.items[k], selected, a.horizontal, a.centered)
    ensures Shows(b.containers[k], a.items[k], selected, b.horizontal, a.centered)
  {
  }

  /** updateNodeBadge: stores the value and relayouts when it differs from
      the one applied. */
  function NodeBadge(s: BarState, i: nat, value: string): (r: BarState)
    requires SelectionInRange(s) && i < |s.containers|
    ensures SelectionInRange(r) && |r.containers| == |s.containers|
    ensures Some(value) == s.containers[i].appliedBadgeValue || s.validLayout.None? ==>
      r == s.(containers := s.containers[i := s.containers[i].(badgeValue := value)])
  {
    var s1 := s.(containers := s.containers[i := s.containers[i].(badgeValue := value)]);
    if Some(value) != s.containers[i].appliedBadgeValue && s1.validLayout.Some? then Layout(s1, s1.validLayout.value)
    else s1
  }

  /** A badge change on a bar with a recorded layout relayouts it with that
      layout, and a tab the layout shows then carries the new value: applied,
      and hidden exactly when it is empty. */
  lemma NodeBadgeRelayouts(s: BarState, i: nat, value: string)
    requires SelectionInRange(s) && i < |s.containers| && s.validLayout.Some?
    requires Some(value) != s.containers[i].appliedBadgeValue
    requires s.horizontal == (s.validLayout.value.leftInset != 0.0)
    requires forall m :: 0 <= m < |s.containers| ==> BadgeShown(s.containers[m])
    requires i in VisibleTabs(|s.containers|, s.validLayout.value.additionalRightInset)
    ensures var r := NodeBadge(s, i, value);
      && r == Layout(s.(containers := s.containers[i := s.containers[i].(badgeValue := value)]), s.validLayout.value)
      && r.containers[i].appliedBadgeValue == Some(value)
      && (r.containers[i].badgeHidden <==> value == "")
  {
    var p := s.validLayout.value;
    var s1 := s.(containers := s.containers[i := s.containers[i].(badgeValue := value)]);
    forall m | 0 <= m < |s1.containers|
      ensures BadgeShown(s1.containers[m])
    {
      assert BadgeShown(s.containers[m]);
    }
    LayoutRecordsFrames(s1, p);
    var vis := VisibleTabs(|s.containers|, p.additionalRightInset);
    var k :| 0 <= k < |vis| && vis[k] == i;
  }

  /** updateSharedLensPosition: puts the lens over a tab, moving it through
      the bridge when an origin is known and the move is animated. */
  function SharedLens(s: BarState, toIndex: nat, fromIndex: Option<nat>, animated: bool): (r: BarState)
    requires toIndex < |s.containers|
    ensures r == s.(lens := r.lens) && r.lens.Some? == s.lens.Some?
    ensures toIndex !in s.tabItemFrames ==> r == s
    ensures s.lens.Some? && toIndex in s.tabItemFrames ==>
      var target := LensFrame(s.tabItemFrames[toIndex], Some(s.containers[toIndex].rendition.contentWidth));
      r.lens == Some(if fromIndex.Some? && animated then MoveTo(s.lens.value, target, fromIndex.value, toIndex, true)
                     else s.lens.value.(frame := target))
  {
    if s.lens.Some? && toIndex in s.tabItemFrames then
      var target := LensFrame(s.tabItemFrames[toIndex], Some(s.containers[toIndex].rendition.contentWidth));
      if fromIndex.Some? && animated then s.(lens := Some(MoveTo(s.lens.value, target, fromIndex.value, toIndex, true)))
      else s.(lens := Some(s.lens.value.(frame := target)))
    else s
  }

  /** A candidate for the tapped tab: its index and horizontal distance. */
  datatype Candidate = Candidate(index: nat, distance: real)

  /** How far a tap at x is from a tab's centre. */
  function Distance(c: Container, x: real): (r: real)
    ensures 0.0 <= r
    ensures r == 0.0 <==> x == MidX(c.frame)
    ensures x <= MidX(c.frame) ==> r == MidX(c.frame) - x
    ensures MidX(c.frame) <= x ==> r == x - MidX(c.frame)
  {
    Abs(x - MidX(c.frame))
  }

  /** The closest interactive tab among the first n, the earliest on a tie. */
  function NearestIn(cs: seq<Container>, x: real, n: nat): (r: Option<Candidate>)
    requires n <= |cs|
    ensures r.Some? ==> r.value.index < n && cs[r.value.index].interactive && r.value.distance == Distance(cs[r.value.index], x)
  {
    if n == 0 then None
    else
      var best := NearestIn(cs, x, n - 1);
      if !cs[n - 1].interactive then best
      else
        var d := Distance(cs[n - 1], x);
        if best.None? || best.value.distance > d then Some(Candidate(n - 1, d)) else best
  }

  function Nearest(cs: seq<Container>, x: real): (r: Option<Candidate>)
    ensures r.Some? ==> r.value.index < |cs|
  {
    NearestIn(cs, x, |cs|)
  }

  /** The tap target is an argmin: no interactive tab is closer, every
      earlier interactive tab is strictly farther, and there is none only
      when no tab is interactive. */
  lemma {:induction false} NearestIsArgmin(cs: seq<Container>, x: real, n: nat)
    requires n <= |cs|
    ensures NearestIn(cs, x, n).None? <==> forall j :: 0 <= j < n ==> !cs[j].interactive
    ensures NearestIn(cs, x, n).Some? ==>
      var i := NearestIn(cs, x, n).value.index;
      && (forall j :: 0 <= j < n && cs[j].interactive ==> Distance(cs[i], x) <= Distance(cs[j], x))
      && (forall j :: 0 <= j < i && cs[j].interactive ==> Distance(cs[i], x) < Distance(cs[j], x))
  {
    if n > 0 {
      NearestIsArgmin(cs, x, n - 1);
    }
  }

  function LensPulse(s: BarState, bounce: bool): (r: BarState)
    ensures r == s.(lens := r.lens) && r.lens.Some? == s.lens.Some?
    ensures s.lens.Some? ==> r.lens.value == if bounce then Bounce(s.lens.value) else Selection(s.lens.value)
  {
    if s.lens.None? then s
    else if bounce then s.(lens := Some(Bounce(s.lens.value)))
    else s.(lens := Some(Selection(s.lens.value)))
  }

  /** The reaction to a tap on tab i: the selection is reported, the host
      may select a tab, and the lens then pulses (moving first when the tab
      was not selected before the tap). */
  function TapOn(s: BarState, i: nat, longTap: bool, hostSelection: Option<nat>): (r: BarState)
    requires SelectionInRange(s) && i < |s.containers| && (hostSelection.Some? ==> hostSelection.value < |s.containers|)
    ensures r.selections == s.selections + [ItemSelection(i, longTap)]
    ensures r.lens.Some? == s.lens.Some?
    ensures s.lens.Some? && s.selectedIndex == Some(i) ==> r.lens.value.timeline == [To(Scale(1.08)), To(Identity)]
    ensures s.lens.Some? && s.selectedIndex != Some(i) ==> r.lens.value.timeline == [To(Scale(0.96)), To(Identity)]
    ensures SelectionInRange(r)
  {
    var previous := s.selectedIndex;
    var s1 := s.(selections := s.selections + [ItemSelection(i, longTap)]);
    var s2 := if hostSelection.Some? then Select(s1, hostSelection) else s1;
    if previous != Some(i) then LensPulse(SharedLens(s2, i, previous, true), false)
    else LensPulse(s2, true)
  }

  /** tapped: resolve the nearest tab and report it to the host, which may
      change the selection (`hostSelection`); then move the lens and pulse
      it for a new tab, or bounce it for the current one. */
  function Tap(s: BarState, location: Point, longTap: bool, boundsHeight: real, hostSelection: Option<nat>): (r: BarState)
    requires SelectionInRange(s) && (hostSelection.Some? ==> hostSelection.value < |s.containers|)
    ensures s.validLayout.None? ==> r == s
    ensures s.validLayout.Some? && location.y > boundsHeight - s.validLayout.value.bottomInset ==> r == s
    ensures Nearest(s.containers, location.x).None? ==> r == s
    ensures r.lens.Some? == s.lens.Some?
    ensures s.validLayout.Some? && location.y <= boundsHeight - s.validLayout.value.bottomInset &&
            Nearest(s.containers, location.x).Some? ==>
      var i := Nearest(s.containers, location.x).value.index;
      && r.selections == s.selections + [ItemSelection(i, longTap)]
      && (s.lens.Some? && s.selectedIndex == Some(i) ==> r.lens.value.timeline == [To(Scale(1.08)), To(Identity)])
      && (s.lens.Some? && s.selectedIndex != Some(i) ==> r.lens.value.timeline == [To(Scale(0.96)), To(Identity)])
    ensures SelectionInRange(r)
  {
    if s.validLayout.None? then s
    else if location.y > boundsHeight - s.validLayout.value.bottomInset then s
    else
      match Nearest(s.containers, location.x)
      case None => s
      case Some(closest) => TapOn(s, closest.index, longTap, hostSelection)
  }

  /** A new tab moves the lens over it through the bridge (when it has a
      recorded frame and there was a previous selection). */
  lemma TapOnNewTabMovesLens(s: BarState, location: Point, longTap: bool, boundsHeight: real)
    requires SelectionInRange(s) && s.validLayout.Some? && s.lens.Some? && s.selectedIndex.Some?
    requires location.y <= boundsHeight - s.validLayout.value.bottomInset
    requires Nearest(s.containers, location.x).Some?
    requires var i := Nearest(s.containers, location.x).value.index;
      s.selectedIndex != Some(i) && i in s.tabItemFrames
    ensures var i := Nearest(s.containers, location.x).value.index;
      var r := Tap(s, location, longTap, boundsHeight, None);
      && r.lens.value.frame == LensFrame(s.tabItemFrames[i], Some(s.containers[i].rendition.contentWidth))
      && r.lens.value.keyframes[0].frame == BridgeFrame(s.lens.value.frame, r.lens.value.frame)
      && r.lens.value.pendingSettles == s.lens.value.pendingSettles + 1
      && r.selectedIndex == s.selectedIndex
  {
    var i := Nearest(s.containers, location.x).value.index;
    var s1 := s.(selections := s.selections + [ItemSelection(i, longTap)]);
    var s3 := SharedLens(s1, i, s.selectedIndex, true);
    assert s3.lens.value == MoveTo(s.lens.value, LensFrame(s.tabItemFrames[i], Some(s.containers[i].rendition.contentWidth)),
                                   s.selectedIndex.value, i, true);
  }

  /** When the host selects the tapped tab, the tab is selected first (which
      may relayout and so re-record the frames), and the lens then moves over
      the frame recorded for it in the selected bar. */
  lemma TapSelectingNewTabMovesLens(s: BarState, location: Point, longTap: bool, boundsHeight: real)
    requires SelectionInRange(s) && s.validLayout.Some? && s.lens.Some? && s.selectedIndex.Some?
    requires location.y <= boundsHeight - s.validLayout.value.bottomInset
    requires Nearest(s.containers, location.x).Some?
    requires s.selectedIndex != Some(Nearest(s.containers, location.x).value.index)
    ensures var i := Nearest(s.containers, location.x).value.index;
      var s2 := Select(s.(selections := s.selections + [ItemSelection(i, longTap)]), Some(i));
      var r := Tap(s, location, longTap, boundsHeight, Some(i));
      && r.selectedIndex == Some(i) && r.containers == s2.containers && r.tabItemFrames == s2.tabItemFrames
      && (i in s2.tabItemFrames ==>
            && r.lens.value.frame == LensFrame(s2.tabItemFrames[i], Some(s2.containers[i].rendition.contentWidth))
            && r.lens.value.keyframes[0].frame == BridgeFrame(s2.lens.value.frame, r.lens.value.frame)
            && r.lens.value.pendingSettles == s2.lens.value.pendingSettles + 1)
  {
    var i := Nearest(s.containers, location.x).value.index;
    var s1 := s.(selections := s.selections + [ItemSelection(i, longTap)]);
    var s2 := Select(s1, Some(i));
    var s3 := SharedLens(s2, i, s.selectedIndex, true);
    assert Tap(s, location, longTap, boundsHeight, Some(i)) == LensPulse(s3, false);
    if i in s2.tabItemFrames {
      assert s3.lens.value == MoveTo(s2.lens.value, LensFrame(s2.tabItemFrames[i], Some(s2.containers[i].rendition.contentWidth)),
                                     s.selectedIndex.value, i, true);
    }
  }

  /** The frame table after the loop: keys below n hold their slot's frame,
      other keys are as before, and no other key appears. */
  lemma {:induction false} RecordFramesEffect(frames: map<nat, Rect>, cs: seq<Container>, vis: seq<nat>, n: nat, width: real)
    requires n <= |vis| && IndicesBelow(vis, |cs|)
    ensures var r := RecordFrames(frames, cs, vis, n, width);
      && (forall k :: 0 <= k < n ==> k in r && r[k] == SlotFrame(cs, vis, k, width))
      && (forall key :: key in frames && n <= key ==> key in r && r[key] == frames[key])
      && (forall key :: key in r ==> key in frames || key < n)
  {
    if n > 0 {
      RecordFramesEffect(frames, cs, vis, n - 1, width);
      var prev := RecordFrames(frames, cs, vis, n - 1, width);
      var r := prev[n - 1 := SlotFrame(cs, vis, n - 1, width)];
      assert RecordFrames(frames, cs, vis, n, width) == r;
      forall k | 0 <= k < n - 1
        ensures k in r && r[k] == SlotFrame(cs, vis, k, width)
      {
        assert r[k] == prev[k];
      }
    }
  }

  /** The containers after the loop: each visible one is framed in its slot
      with its badge applied, and every other one is untouched. */
  lemma {:induction false} PlaceTabsEffect(cs: seq<Container>, vis: seq<nat>, n: nat, width: real)
    requires n <= |vis| && IndicesBelow(vis, |cs|) && Increasing(vis)
    ensures var r := PlaceTabs(cs, vis, n, width);
      && (forall k :: 0 <= k < n ==> r[vis[k]] == ApplyBadge(cs[vis[k]].(frame := SlotFrame(cs, vis, k, width))))
      && (forall m :: 0 <= m < |cs| && (forall k :: 0 <= k < n ==> vis[k] != m) ==> r[m] == cs[m])
  {
    if n > 0 {
      PlaceTabsEffect(cs, vis, n - 1, width);
      var placed := PlaceTabs(cs, vis, n - 1, width);
      assert forall k :: 0 <= k < n - 1 ==> vis[k] != vis[n - 1];
      assert placed[vis[n - 1]] == cs[vis[n - 1]];
    }
  }

  /** A layout that keeps the orientation re-renders nothing: it shows or
      hides the calls tab, runs the placement loop over the visible tabs and
      shows the lens. */
  lemma LayoutUnfolds(s: BarState, p: LayoutParams)
    requires SelectionInRange(s) && |s.containers| > 0
    requires s.horizontal == (p.leftInset != 0.0)
    ensures var cs := ShowCallsTab(s.containers, p);
      var vis := VisibleTabs(|cs|, p.additionalRightInset);
      var r := Layout(s, p);
      && r.containers == PlaceTabs(cs, vis, |vis|, LayoutWidth(p))
      && r.tabItemFrames == RecordFrames(s.tabItemFrames, cs, vis, |vis|, LayoutWidth(p))
  {
    var cs := ShowCallsTab(s.containers, p);
    var vis := VisibleTabs(|cs|, p.additionalRightInset);
    var width := LayoutWidth(p);
    var s1 := s.(validLayout := Some(p));
    var t := s1.(containers := PlaceTabs(cs, vis, |vis|, width),
                 tabItemFrames := RecordFrames(s1.tabItemFrames, cs, vis, |vis|, width));
    assert Layout(s, p) == Arrange(s1, p) == ShowLens(t);
  }

  /** The placement loop and the frame table agree on every visible
      position: the table holds under position k the frame the container
      vis[k] was given, which is its slot's frame, and that container's badge
      is applied. */
  lemma PlacementOnSlots(cs: seq<Container>, vis: seq<nat>, width: real, frames: map<nat, Rect>)
    requires 0 < |vis| && IndicesBelow(vis, |cs|) && Increasing(vis)
    requires forall m :: 0 <= m < |cs| ==> BadgeShown(cs[m])
    ensures var rc := PlaceTabs(cs, vis, |vis|, width);
      var rf := RecordFrames(frames, cs, vis, |vis|, width);
      && (forall k :: 0 <= k < |vis| ==>
            k in rf && rf[k] == rc[vis[k]].frame &&
            rf[k] == NodeFrame(k, |vis|, width, cs[vis[k]].rendition.textImageSize) &&
            rc[vis[k]].appliedBadgeValue == Some(cs[vis[k]].badgeValue) &&
            (rc[vis[k]].badgeHidden <==> cs[vis[k]].badgeValue == ""))
      && (forall key :: key in rf ==> key in frames || key < |vis|)
  {
    var rc := PlaceTabs(cs, vis, |vis|, width);
    var rf := RecordFrames(frames, cs, vis, |vis|, width);
    PlaceTabsEffect(cs, vis, |vis|, width);
    RecordFramesEffect(frames, cs, vis, |vis|, width);
    forall k | 0 <= k < |vis|
      ensures k in rf && rf[k] == rc[vis[k]].frame
      ensures rf[k] == NodeFrame(k, |vis|, width, cs[vis[k]].rendition.textImageSize)
      ensures rc[vis[k]].appliedBadgeValue == Some(cs[vis[k]].badgeValue)
      ensures rc[vis[k]].badgeHidden <==> cs[vis[k]].badgeValue == ""
    {
      var m := vis[k];
      var c := cs[m].(frame := SlotFrame(cs, vis, k, width));
      assert rf[k] == SlotFrame(cs, vis, k, width);
      assert rc[m] == ApplyBadge(c);
      assert BadgeShown(cs[m]);
    }
  }

  /** The placement loop over the tabs of a non-empty bar: the frame table
      holds one frame per visible position, keyed by that position and equal
      to the frame of the tab shown there, which is its slot frame (centred
      to within a point, by NodeFrame), and every visible tab's badge is
      applied and hidden exactly when empty. */
  lemma PlacementRecordsFrames(orig: seq<Container>, p: LayoutParams, frames: map<nat, Rect>)
    requires 0 < |orig| && forall m :: 0 <= m < |orig| ==> BadgeShown(orig[m])
    ensures var cs := ShowCallsTab(orig, p);
      var vis := VisibleTabs(|cs|, p.additionalRightInset);
      var rc := PlaceTabs(cs, vis, |vis|, LayoutWidth(p));
      var rf := RecordFrames(frames, cs, vis, |vis|, LayoutWidth(p));
      && (forall k :: 0 <= k < |vis| ==>
            k in rf && rf[k] == rc[vis[k]].frame &&
            rf[k] == NodeFrame(k, |vis|, LayoutWidth(p), orig[vis[k]].rendition.textImageSize) &&
            rc[vis[k]].appliedBadgeValue == Some(orig[vis[k]].badgeValue) &&
            (rc[vis[k]].badgeHidden <==> orig[vis[k]].badgeValue == ""))
      && (forall key :: key in rf ==> key in frames || key < |vis|)
  {
    var cs := ShowCallsTab(orig, p);
    var vis := VisibleTabs(|cs|, p.additionalRightInset);
    forall m | 0 <= m < |cs|
      ensures BadgeShown(cs[m]) && cs[m].rendition == orig[m].rendition && cs[m].badgeValue == orig[m].badgeValue
    {
      assert cs[m] == orig[m].(alpha := cs[m].alpha, interactive := cs[m].interactive);
      assert BadgeShown(orig[m]);
    }
    PlacementOnSlots(cs, vis, LayoutWidth(p), frames);
  }

  /** After a layout of a non-empty bar that keeps its orientation, the frame
      table and the visible tabs are as the placement loop leaves them. */
  lemma LayoutRecordsFrames(s: BarState, p: LayoutParams)
    requires SelectionInRange(s) && |s.containers| > 0
    requires s.horizontal == (p.leftInset != 0.0)
    requires forall m :: 0 <= m < |s.containers| ==> BadgeShown(s.containers[m])
    ensures var r := Layout(s, p);
      var vis := VisibleTabs(|s.containers|, p.additionalRightInset);
      && (forall k :: 0 <= k < |vis| ==>
            k in r.tabItemFrames && r.tabItemFrames[k] == r.containers[vis[k]].frame &&
            r.tabItemFrames[k] == NodeFrame(k, |vis|, LayoutWidth(p), s.containers[vis[k]].rendition.textImageSize) &&
            r.containers[vis[k]].appliedBadgeValue == Some(s.containers[vis[k]].badgeValue) &&
            (r.containers[vis[k]].badgeHidden <==> s.containers[vis[k]].badgeValue == ""))
      && (forall key :: key in r.tabItemFrames ==> key in s.tabItemFrames || key < |vis|)
  {
    LayoutUnfolds(s, p);
    PlacementRecordsFrames(s.containers, p, s.tabItemFrames);
  }

  /** With four tabs and a right side inset the calls tab is hidden, disabled
      and not moved, and the three other tabs are recorded under keys 0-2. */
  lemma LayoutDropsCallsTab(s: BarState, p: LayoutParams)
    requires SelectionInRange(s) && |s.containers| == 4 && p.additionalRightInset > 0.0
    requires s.horizontal == (p.leftInset != 0.0)
    ensures var r := Layout(s, p);
      && r.containers[1].alpha == 0.0 && !r.containers[1].interactive
      && r.containers[1].frame == s.containers[1].frame
      && 0 in r.tabItemFrames && 1 in r.tabItemFrames && 2 in r.tabItemFrames
      && r.tabItemFrames[0] == r.containers[0].frame
      && r.tabItemFrames[1] == r.containers[2].frame
      && r.tabItemFrames[2] == r.containers[3].frame
  {
    var cs := ShowCallsTab(s.containers, p);
    LayoutUnfolds(s, p);
    ThreeTabPlacement(cs, LayoutWidth(p), s.tabItemFrames);
  }

  /** The placement of a four-tab bar whose calls tab is hidden: tab 1 is
      not placed, and tabs 0, 2 and 3 are recorded under keys 0-2. */
  lemma ThreeTabPlacement(cs: seq<Container>, width: real, frames: map<nat, Rect>)
    requires |cs| == 4
    ensures var vis := [0, 2, 3];
      var rc := PlaceTabs(cs, vis, |vis|, width);
      var rf := RecordFrames(frames, cs, vis, |vis|, width);
      && rc[1] == cs[1]
      && 0 in rf && 1 in rf && 2 in rf && rf[0] == rc[0].frame && rf[1] == rc[2].frame && rf[2] == rc[3].frame
  {
    var vis: seq<nat> := [0, 2, 3];
    PlaceTabsEffect(cs, vis, |vis|, width);
    assert forall k :: 0 <= k < 3 ==> vis[k] != 1;
    RecordFramesEffect(frames, cs, vis, |vis|, width);
  }

  /** While the calls tab is hidden, the frame table is keyed by visible
      position but read by tab index: a transparent lens over the selected
      third tab is centred on the fourth tab's frame. */
  lemma HiddenCallsTabShiftsLens(s: BarState, p: LayoutParams)
    requires SelectionInRange(s) && |s.containers| == 4 && p.additionalRightInset > 0.0
    requires s.horizontal == (p.leftInset != 0.0)
    requires s.selectedIndex == Some(2) && s.lens.Some? && s.lens.value.alpha == 0.0
    ensures var r := Layout(s, p);
      r.lens.Some? && MidX(r.lens.value.frame) == MidX(r.containers[3].frame)
  {
    LayoutDropsCallsTab(s, p);
  }

  /** Layout never moves a lens that is already visible. */
  lemma LayoutLeavesVisibleLens(s: BarState, p: LayoutParams)
    requires SelectionInRange(s) && s.lens.Some? && s.lens.value.alpha != 0.0
    requires s.horizontal == (p.leftInset != 0.0)
    ensures Layout(s, p).lens == s.lens
  {
  }

  class TabBarNode {
    var items: seq<TabItem>
    var containers: seq<Container>
    var selectedIndex: Option<nat>
    var horizontal: bool
    const centered: bool
    var validLayout: Option<LayoutParams>
    var tabItemFrames: map<nat, Rect>
    var lens: LiquidGlassLensView?
    var selections: seq<ItemSelection>

    function State(): BarState
      reads this, lens
    {
      BarState(items, containers, selectedIndex, horizontal, centered, validLayout, tabItemFrames,
               if lens == null then None else Some(lens.State()), selections)
    }

    predicate Valid()
      reads this
    {
      selectedIndex.Some? ==> selectedIndex.value < |containers|
    }

    /** `centered` comes from the theme: a clear text colour centres tabs. */
    constructor (centered: bool)
      ensures State() == BarState([], [], None, false, centered, None, map[], None, []) && lens == null
    {
      this.centered := centered;
      items, containers, selectedIndex, horizontal := [], [], None, false;
      validLayout, tabItemFrames, lens, selections := None, map[], null, [];
    }

    /** didLoad: the lens is created transparent. */
    method DidLoad()
      requires lens == null
      modifies this
      ensures lens != null && fresh(lens)
      ensures State() == old(State()).(lens := Some(LensState(ZeroRect, LensCornerRadius, 0.0, false, 0.0, [], [], None, 0)))
    {
      var lensView := new LiquidGlassLensView(ZeroRect);
      lensView.SetAlpha(0.0);
      lens := lensView;
    }

    /** The tabBarItems setter and reloadTabBarItems. */
    method SetTabBarItems(newItems: seq<TabItem>)
      requires selectedIndex.Some? ==> selectedIndex.value < |newItems|
      modifies this
      ensures State() == Reload(old(State()), newItems) && lens == old(lens) && Valid()
    {
      var built: seq<Container> := [];
      var i := 0;
      while i < |newItems|
        invariant 0 <= i <= |newItems| && |built| == i
        invariant forall k :: 0 <= k < i ==> built[k] == NewContainer(newItems[k], selectedIndex == Some(k), horizontal, centered)
      {
        built := built + [NewContainer(newItems[i], selectedIndex == Some(i), horizontal, centered)];
        i := i + 1;
      }
      items := newItems;
      containers := built;
    }

    method UpdateNodeImage(i: nat, layout: bool)
      requires Valid()
      modifies this, lens
      ensures State() == NodeImage(old(State()), i, layout) && lens == old(lens) && Valid()
      decreases if layout then 2 else 0, 0
    {
      if i < |containers| && i < |items| {
        ghost var s0 := State();
        var c := containers[i];
        var selected := selectedIndex == Some(i);
        var rendition := Render(items[i], selected, horizontal, centered, true);
        containers := containers[i := c.(rendition := rendition, isSelected := selected)];
        assert State() == Rerendered(s0, i);
        if (c.rendition.imageSize != rendition.imageSize || c.rendition.textImageSize != rendition.textImageSize)
           && layout && validLayout.Some? {
          UpdateLayout(validLayout.value);
        }
      }
    }

    method UpdateLayout(p: LayoutParams)
      requires Valid()
      modifies this, lens
      ensures State() == Layout(old(State()), p) && lens == old(lens) && Valid()
      decreases 1, 0
    {
      ghost var s0 := State();
      validLayout := Some(p);
      var h := p.leftInset != 0.0;
      if horizontal != h {
        horizontal := h;
        assert State() == s0.(validLayout := Some(p), horizontal := h);
        RenderTabs();
      } else {
        assert State() == s0.(validLayout := Some(p));
      }
      ghost var s2 := State();
      ArrangeTabs(p);
      assert State() == Arrange(s2, p);
    }

    /** The re-render loop of updateLayout after the orientation flips. */
    method RenderTabs()
      requires Valid()
      modifies this, lens
      ensures State() == RenderAll(old(State()), |old(items)|) && lens == old(lens) && Valid()
      decreases 0, 1
    {
      ghost var s1 := State();
      var i := 0;
      while i < |items|
        invariant 0 <= i <= |items| && items == s1.items
        invariant State() == RenderAll(s1, i) && lens == old(lens) && Valid()
      {
        UpdateNodeImage(i, false);
        i := i + 1;
      }
    }

    /** The second half of updateLayout. */
    method ArrangeTabs(p: LayoutParams)
      requires Valid()
      modifies this, lens
      ensures State() == Arrange(old(State()), p) && lens == old(lens) && Valid()
    {
      if |containers| != 0 {
        var cs := ShowCallsTab(containers, p);
        containers := cs;
        ghost var s2 := State();
        var vis := VisibleTabs(|cs|, p.additionalRightInset);
        var width := LayoutWidth(p);
        PlaceVisibleTabs(cs, vis, width);
        assert State() == s2.(containers := PlaceTabs(cs, vis, |vis|, width),
                              tabItemFrames := RecordFrames(s2.tabItemFrames, cs, vis, |vis|, width));
        ShowHiddenLens();
      }
    }

    /** The placement loop of updateLayout over the visible tabs. */
    method PlaceVisibleTabs(cs: seq<Container>, vis: seq<nat>, width: real)
      requires containers == cs && IndicesBelow(vis, |cs|) && Valid()
      modifies this
      ensures containers == PlaceTabs(cs, vis, |vis|, width)
      ensures tabItemFrames == RecordFrames(old(tabItemFrames), cs, vis, |vis|, width)
      ensures items == old(items) && selectedIndex == old(selectedIndex) && horizontal == old(horizontal)
      ensures validLayout == old(validLayout) && lens == old(lens) && selections == old(selections)
      ensures Valid()
    {
      var k := 0;
      while k < |vis|
        invariant 0 <= k <= |vis|
        invariant containers == PlaceTabs(cs, vis, k, width)
        invariant tabItemFrames == RecordFrames(old(tabItemFrames), cs, vis, k, width)
        invariant items == old(items) && selectedIndex == old(selectedIndex) && horizontal == old(horizontal)
        invariant validLayout == old(validLayout) && lens == old(lens) && selections == old(selections)
      {
        var c := containers[vis[k]];
        var f := NodeFrame(k, |vis|, width, c.rendition.textImageSize);
        containers := containers[vis[k] := ApplyBadge(c.(frame := f))];
        tabItemFrames := tabItemFrames[k := f];
        k := k + 1;
      }
    }

    /** The end of updateLayout: a transparent lens is put over the selected
        tab and faded in. */
    method ShowHiddenLens()
      requires Valid()
      modifies lens
      ensures State() == ShowLens(old(State()))
    {
      if lens != null && selectedIndex.Some? && selectedIndex.value in tabItemFrames {
        var index := selectedIndex.value;
        var lensFrame := LensFrame(tabItemFrames[index], Some(containers[index].rendition.contentWidth));
        if lens.alpha == 0.0 {
          lens.SetFrame(lensFrame);
          lens.SetAlpha(1.0);
        }
      }
    }

    /** The selectedIndex setter. */
    method SetSelectedIndex(v: Option<nat>)
      requires Valid() && (v.Some? ==> v.value < |containers|)
      modifies this, lens
      ensures State() == Select(old(State()), v) && lens == old(lens) && Valid()
    {
      var oldValue := selectedIndex;
      selectedIndex := v;
      if v != oldValue {
        if oldValue.Some? {
          UpdateNodeImage(oldValue.value, true);
        }
        if v.Some? {
          UpdateNodeImage(v.value, true);
        }
      }
    }

    method UpdateNodeBadge(i: nat, value: string)
      requires Valid() && i < |containers|
      modifies this, lens
      ensures State() == NodeBadge(old(State()), i, value) && lens == old(lens) && Valid()
      ensures var s := old(State());
        s.validLayout.Some? && Some(value) != s.containers[i].appliedBadgeValue &&
        s.horizontal == (s.validLayout.value.leftInset != 0.0) &&
        (forall m :: 0 <= m < |s.containers| ==> BadgeShown(s.containers[m])) &&
        i in VisibleTabs(|s.containers|, s.validLayout.value.additionalRightInset) ==>
          && State() == Layout(s.(containers := s.containers[i := s.containers[i].(badgeValue := value)]), s.validLayout.value)
          && containers[i].appliedBadgeValue == Some(value)
          && (containers[i].badgeHidden <==> value == "")
    {
      ghost var s0 := State();
      var applied := containers[i].appliedBadgeValue;
      containers := containers[i := containers[i].(badgeValue := value)];
      if Some(value) != applied && validLayout.Some? {
        UpdateLayout(validLayout.value);
      }
      if s0.validLayout.Some? && Some(value) != s0.containers[i].appliedBadgeValue &&
         s0.horizontal == (s0.validLayout.value.leftInset != 0.0) &&
         (forall m :: 0 <= m < |s0.containers| ==> BadgeShown(s0.containers[m])) &&
         i in VisibleTabs(|s0.containers|, s0.validLayout.value.additionalRightInset) {
        NodeBadgeRelayouts(s0, i, value);
      }
    }

    method UpdateSharedLensPosition(toIndex: nat, fromIndex: Option<nat>, animated: bool)
      requires toIndex < |containers|
      modifies lens
      ensures State() == SharedLens(old(State()), toIndex, fromIndex, animated)
    {
      if lens != null && toIndex in tabItemFrames {
        var targetFrame := tabItemFrames[toIndex];
        var lensFrame := LensFrame(targetFrame, Some(containers[toIndex].rendition.contentWidth));
        if fromIndex.Some? && animated {
          lens.AnimateToFrame(lensFrame, fromIndex.value, toIndex, true);
        } else {
          lens.SetFrame(lensFrame);
        }
      }
    }

    /** The search loop of `tapped`. */
    method ClosestNode(x: real) returns (closest: Option<Candidate>)
      ensures closest == Nearest(containers, x)
    {
      closest := None;
      var i := 0;
      while i < |containers|
        invariant 0 <= i <= |containers|
        invariant closest == NearestIn(containers, x, i)
      {
        if containers[i].interactive {
          var distance := Abs(x - MidX(containers[i].frame));
          if closest.None? || closest.value.distance > distance {
            closest := Some(Candidate(i, distance));
          }
        }
        i := i + 1;
      }
    }

    /** The part of tapped that follows finding the closest tab. */
    method TappedOn(index: nat, longTap: bool, hostSelection: Option<nat>)
      requires Valid() && index < |containers| && (hostSelection.Some? ==> hostSelection.value < |containers|)
      modifies this, lens
      ensures State() == TapOn(old(State()), index, longTap, hostSelection)
      ensures lens == old(lens) && Valid()
    {
      var previousSelectedIndex := selectedIndex;
      ghost var s0 := State();
      selections := selections + [ItemSelection(index, longTap)];
      ghost var s1 := State();
      assert s1 == s0.(selections := s0.selections + [ItemSelection(index, longTap)]);
      if hostSelection.Some? {
        SetSelectedIndex(hostSelection);
      }
      ghost var s2 := State();
      assert s2 == if hostSelection.Some? then Select(s1, hostSelection) else s1;
      PulseLens(index, previousSelectedIndex);
    }

    /** The lens's answer to a tap on tab `index`: moved there and pulsed
        when it was not the selection before the tap, bounced otherwise. */
    method PulseLens(index: nat, previous: Option<nat>)
      requires Valid() && index < |containers|
      modifies this, lens
      ensures State() == if previous != Some(index) then LensPulse(SharedLens(old(State()), index, previous, true), false)
                         else LensPulse(old(State()), true)
      ensures lens == old(lens) && Valid()
    {
      if previous != Some(index) {
        UpdateSharedLensPosition(index, previous, true);
        ghost var s3 := State();
        if lens != null {
          lens.AnimateSelection();
        }
        assert State() == LensPulse(s3, false);
      } else {
        if lens != null {
          lens.AnimateBounce();
        }
      }
    }

    /** tapped, with the host's reaction to the reported tap given as the
        selection it sets (if any). */
    method Tapped(location: Point, longTap: bool, boundsHeight: real, hostSelection: Option<nat>)
      requires Valid() && (hostSelection.Some? ==> hostSelection.value < |containers|)
      modifies this, lens
      ensures State() == Tap(old(State()), location, longTap, boundsHeight, hostSelection)
      ensures lens == old(lens) && Valid()
    {
      if validLayout.None? {
        return;
      }
      if location.y > boundsHeight - validLayout.value.bottomInset {
        return;
      }
      var closest := ClosestNode(location.x);
      if closest.None? {
        return;
      }
      TappedOn(closest.value.index, longTap, hostSelection);
    }
  }
}

/** The overlay controller `DynamicIsland`: its expanded flag, palette
    alpha, window geometry, label visibility, the three geometry
    animations it may hold, the press/drag bookkeeping, the bell-wiggle
    timer and the texts fed by the volume, battery and music sources.

    Each event handler is a pure transition on `IslandState` that keeps
    the invariant `Inv`; the class `DynamicIsland` holds the same state in
    fields and its methods are proved to perform those transitions. The
    label texts fed by the volume, battery and music sources are fields of
    the class only, as no handler reads them. Only
    the handlers Python finally binds are modelled: for methods the source
    defines twice, the later definition. */
module Island {
  import opened PyBuiltins
  import opened IslandDisplay
  import VolumeUtils

  /** A started geometry animation (the position and size animations run
      in parallel from `start` to `target`). `running` turns false when it
      finishes; a stopped animation never reports finishing. */
  datatype Animation = Animation(start: Rect, target: Rect, running: bool)

  /** Visibility of the labels that are shown and hidden. */
  datatype Labels = Labels(volumePercent: bool, battery: bool, calendar: bool, calendarDetail: bool, extraInfo: bool)

  const Hidden: Labels := Labels(false, false, false, false, false)

  /** The attributes `hover_animation`, `expand_animation` and
      `collapse_animation` (`bell_animation` is never assigned). */
  datatype Slot = HoverSlot | ExpandSlot | CollapseSlot

  datatype IslandState = IslandState(
    expanded: bool,
    /** Alpha of the palette's window colour. */
    alpha: int,
    geometry: Rect,
    labels: Labels,
    hover: Option<Animation>,
    expand: Option<Animation>,
    collapse: Option<Animation>,
    draggable: bool,
    clickPos: Point,
    dragPosition: Point,
    /** Whether `bell_rotation_timer` exists, and the wiggle state. */
    bellTimer: bool,
    bell: BellState)

  /** The extra-information label's text for a track. */
  function NowPlaying(song: string, artist: string): string {
    "正在播放: " + song + " - " + artist
  }

  const InitialSong: string := "示例音乐"
  const InitialArtist: string := "示例艺术家"

  /** The state `__init__` leaves. */
  function Initial(screenWidth: int): IslandState {
    IslandState(false, 200, CollapsedRect(screenWidth), Hidden, None, None, None, false,
                Point(0, 0), Point(0, 0), false, BellStart)
  }

  function AnimationAt(s: IslandState, slot: Slot): Option<Animation> {
    match slot
    case HoverSlot => s.hover
    case ExpandSlot => s.expand
    case CollapseSlot => s.collapse
  }

  /** How many animation attributes are set. */
  function HeldCount(s: IslandState): nat {
    (if s.hover.Some? then 1 else 0) + (if s.expand.Some? then 1 else 0) + (if s.collapse.Some? then 1 else 0)
  }

  /** The sizes the window passes through: every target and starting size
      lies between 220 × 40 and 320 × 70. */
  predicate Sized(r: Rect) {
    OriginalWidth <= r.width <= OriginalWidth + 100 && OriginalHeight <= r.height <= OriginalHeight + 30
  }

  function MinInt(a: int, b: int): int { if a <= b then a else b }
  function MaxInt(a: int, b: int): int { if a >= b then a else b }

  predicate Within(v: int, a: int, b: int) {
    MinInt(a, b) <= v <= MaxInt(a, b)
  }

  /** A frame of an animation: with the OutQuad easing each coordinate
      moves monotonically from its start to its target value. */
  predicate Between(a: Animation, f: Rect) {
    && Within(f.x, a.start.x, a.target.x)
    && Within(f.y, a.start.y, a.target.y)
    && Within(f.width, a.start.width, a.target.width)
    && Within(f.height, a.start.height, a.target.height)
  }

  predicate Aimed(a: Option<Animation>, target: Rect) {
    a.Some? ==> a.value.target == target && Sized(a.value.start)
  }

  /** The controller's invariant on a screen of width `screenWidth`. */
  predicate Inv(s: IslandState, screenWidth: int) {
    // At most one geometry animation is held at a time.
    && HeldCount(s) <= 1
    // Expanded: only the expand animation, the most opaque palette, and
    // the extra labels shown.
    && (s.expanded ==> s.hover.None? && s.collapse.None? && s.alpha == 240 && s.labels.volumePercent)
    // Collapsed: no expand animation; the hover palette exactly when the
    // hover labels are shown.
    && (!s.expanded ==> s.expand.None? && (s.alpha == 200 || s.alpha == 230) && (s.alpha == 230 <==> s.labels.volumePercent))
    && s.labels.battery == s.labels.volumePercent && s.labels.calendar == s.labels.volumePercent
    && s.labels.extraInfo == s.expanded
    // Every animation heads for the rectangle of the mode it serves.
    && Aimed(s.hover, if s.labels.volumePercent then HoverRect(screenWidth) else CollapsedRect(screenWidth))
    && Aimed(s.expand, ExpandedRect(screenWidth))
    && Aimed(s.collapse, CollapsedRect(screenWidth))
    && Sized(s.geometry)
    && (s.bellTimer ==> Swinging(s.bell))
  }

  lemma InitialInv(screenWidth: int)
    ensures Inv(Initial(screenWidth), screenWidth)
  {
  }

  /** `stop_all_animations()`: stops and forgets every held animation;
      none of their finish callbacks runs afterwards. */
  function Stopped(s: IslandState): (r: IslandState)
    ensures HeldCount(r) == 0
    ensures r.(hover := s.hover, expand := s.expand, collapse := s.collapse) == s
    ensures forall w :: Inv(s, w) ==> Inv(r, w)
  {
    s.(hover := None, expand := None, collapse := None)
  }

  /** `toggle_expand()`: flips the mode and animates from the current
      geometry to the mode's rectangle, centred on the screen. */
  function Toggled(s: IslandState, screenWidth: int): (r: IslandState)
    ensures r.expanded == !s.expanded
    ensures Inv(s, screenWidth) ==> Inv(r, screenWidth)
    ensures HeldCount(r) == 1 && r.geometry == s.geometry
    ensures r.expanded ==> r.expand.Some? && r.expand.value.running && r.labels == Labels(true, true, true, false, true)
    ensures !r.expanded ==> r.collapse.Some? && r.collapse.value.running && r.labels == Hidden && r.alpha == 200
  {
    var t := Stopped(s).(expanded := !s.expanded);
    if t.expanded then
      t.(labels := Labels(true, true, true, false, true), alpha := 240,
         expand := Some(Animation(s.geometry, ExpandedRect(screenWidth), true)))
    else
      t.(labels := Hidden, alpha := 200,
         collapse := Some(Animation(s.geometry, CollapsedRect(screenWidth), true)))
  }

  /** `enterEvent`: when collapsed, shows the hover labels (not the
      calendar detail) and animates to the hover rectangle. */
  function Entered(s: IslandState, screenWidth: int): (r: IslandState)
    ensures s.expanded ==> r == s
    ensures Inv(s, screenWidth) ==> Inv(r, screenWidth)
    ensures !s.expanded ==>
      && r.alpha == 230 && r.labels.volumePercent && !r.labels.calendarDetail
      && r.hover.Some? && r.hover.value.running && r.hover.value.target == HoverRect(screenWidth)
      && r.geometry == s.geometry && HeldCount(r) == 1
  {
    if s.expanded then s
    else
      Stopped(s).(alpha := 230,
                  labels := s.labels.(volumePercent := true, battery := true, calendar := true, calendarDetail := false),
                  hover := Some(Animation(s.geometry, HoverRect(screenWidth), true)))
  }

  /** `leaveEvent`: when collapsed, hides the hover labels and animates
      back to the collapsed rectangle. */
  function Left(s: IslandState, screenWidth: int): (r: IslandState)
    ensures s.expanded ==> r == s
    ensures Inv(s, screenWidth) ==> Inv(r, screenWidth)
    ensures !s.expanded ==>
      && r.alpha == 200 && !r.labels.volumePercent && !r.labels.calendarDetail
      && r.hover.Some? && r.hover.value.running && r.hover.value.target == CollapsedRect(screenWidth)
      && r.geometry == s.geometry && HeldCount(r) == 1
  {
    if s.expanded then s
    else
      Stopped(s).(alpha := 200,
                  labels := s.labels.(volumePercent := false, calendarDetail := false, battery := false, calendar := false),
                  hover := Some(Animation(s.geometry, CollapsedRect(screenWidth), true)))
  }

  /** `mouseMoveEvent` with the left button held (`leftHeld`): beyond the
      drag threshold from the recorded press, stops every animation and
      moves the window so the press point follows the pointer. */
  function Moved(s: IslandState, leftHeld: bool, pos: Point, globalPos: Point): (r: IslandState)
    ensures !(leftHeld && IsDrag(s.clickPos, pos)) ==> r == s
    ensures leftHeld && IsDrag(s.clickPos, pos) ==>
      && r.draggable && HeldCount(r) == 0
      && r.geometry == Rect(globalPos.x - s.dragPosition.x, globalPos.y - s.dragPosition.y, s.geometry.width, s.geometry.height)
    ensures forall w :: Inv(s, w) ==> Inv(r, w)
  {
    if leftHeld && IsDrag(s.clickPos, pos) then
      var top := Sub(globalPos, s.dragPosition);
      Stopped(s).(draggable := true, geometry := s.geometry.(x := top.x, y := top.y))
    else s
  }

  /** The top-left corner of the window (its frame geometry, as the
      window has no frame). */
  function TopLeft(r: Rect): Point {
    Point(r.x, r.y)
  }

  /** `mousePressEvent` with the left button, apart from the volume state:
      a press on the volume icon changes nothing else (the mute toggle is
      the controller's ToggleMute); on the calendar icon it toggles the
      calendar detail; on the bell it starts the wiggle; elsewhere it
      records the press for a later click or drag. Only that last case
      records the press position. */
  function Pressed(s: IslandState, layout: Layout, pos: Point, globalPos: Point): (r: IslandState)
    ensures forall w :: Inv(s, w) ==> Inv(r, w)
    ensures r.expanded == s.expanded && r.geometry == s.geometry && r.alpha == s.alpha
    ensures (r.clickPos, r.dragPosition) != (s.clickPos, s.dragPosition) ==> PressActionAt(layout, pos).StartGesture?
    ensures PressActionAt(layout, pos).StartGesture? ==>
      r.clickPos == pos && !r.draggable && Sub(globalPos, r.dragPosition) == TopLeft(s.geometry)
    ensures PressActionAt(layout, pos).ToggleCalendarDetail? ==> r.labels.calendarDetail == !s.labels.calendarDetail
    ensures PressActionAt(layout, pos).RingBell? ==> r.bellTimer && r.bell == BellStart
  {
    match PressActionAt(layout, pos)
    case ToggleMute => s
    case ToggleCalendarDetail => s.(labels := s.labels.(calendarDetail := !s.labels.calendarDetail))
    case RingBell => Rung(s)
    case StartGesture => s.(clickPos := pos, dragPosition := Sub(globalPos, TopLeft(s.geometry)), draggable := false)
  }

  /** Qt's two coordinates of one pointer position: relative to the
      window (`pos`) and on the screen (`globalPos`). */
  predicate WidgetPoint(s: IslandState, pos: Point, globalPos: Point) {
    pos == Sub(globalPos, TopLeft(s.geometry))
  }

  /** A drag ends with a click. While dragging, the window follows the
      pointer so that the press point stays under it; the release therefore
      lands at distance 0 from the recorded press and toggles the mode,
      because `mouseReleaseEvent` never consults `draggable`. */
  lemma DragEndsInToggle(s: IslandState, screenWidth: int, layout: Layout,
                         pos: Point, globalPos: Point, movePos: Point, moveGlobal: Point)
    requires PressActionAt(layout, pos).StartGesture?
    requires Contains(Rect(0, 0, s.geometry.width, s.geometry.height), pos)
    requires WidgetPoint(s, pos, globalPos)
    requires WidgetPoint(Pressed(s, layout, pos, globalPos), movePos, moveGlobal)
    requires IsDrag(pos, movePos)
    ensures var dragged := Moved(Pressed(s, layout, pos, globalPos), true, movePos, moveGlobal);
      && dragged.draggable
      && WidgetPoint(dragged, pos, moveGlobal)
      && Released(dragged, screenWidth, layout, pos).expanded != s.expanded
  {
  }

  /** Two presses on the calendar icon restore the state. */
  lemma CalendarPressTwice(s: IslandState, layout: Layout, pos: Point, globalPos: Point)
    requires PressActionAt(layout, pos).ToggleCalendarDetail?
    ensures Pressed(Pressed(s, layout, pos, globalPos), layout, pos, globalPos) == s
  {
  }

  /** `mouseReleaseEvent` with the left button: a click (see
      ReleaseToggles) toggles the mode; the drag flag is cleared either
      way. */
  function Released(s: IslandState, screenWidth: int, layout: Layout, pos: Point): (r: IslandState)
    ensures !r.draggable
    ensures Inv(s, screenWidth) ==> Inv(r, screenWidth)
    ensures r.expanded != s.expanded <==> ReleaseToggles(s.clickPos, pos, s.geometry, layout)
    ensures !ReleaseToggles(s.clickPos, pos, s.geometry, layout) ==> r == s.(draggable := false)
  {
    var t := if ReleaseToggles(s.clickPos, pos, s.geometry, layout) then Toggled(s, screenWidth) else s;
    t.(draggable := false)
  }

  /** `ring_bell_animation()`: stops any running wiggle timer and starts
      it again from angle 0, direction +1 and step 0. */
  function Rung(s: IslandState): (r: IslandState)
    ensures r.bellTimer && r.bell == BellStart && Swinging(r.bell)
    ensures r.(bellTimer := s.bellTimer, bell := s.bell) == s
    ensures forall w :: Inv(s, w) ==> Inv(r, w)
  {
    s.(bellTimer := true, bell := BellStart)
  }

  /** One tick of `bell_rotation_timer`. */
  function BellTicked(s: IslandState): (r: IslandState)
    requires s.bellTimer
    ensures forall w :: Inv(s, w) ==> Inv(r, w) && r.bellTimer
  {
    var t := BellUpdate(s.bell);
    s.(bell := t.state, bellTimer := !t.stopped)
  }

  /** A frame of the held animation in `slot`. */
  function Framed(s: IslandState, slot: Slot, frame: Rect): (r: IslandState)
    requires AnimationAt(s, slot).Some? && AnimationAt(s, slot).value.running
    requires Between(AnimationAt(s, slot).value, frame)
    ensures forall w :: Inv(s, w) ==> Inv(r, w)
  {
    s.(geometry := frame)
  }

  /** The held animation in `slot` finishes: its callback pins the
      geometry to the target. */
  function Finished(s: IslandState, slot: Slot): (r: IslandState)
    requires AnimationAt(s, slot).Some? && AnimationAt(s, slot).value.running
    ensures r.geometry == AnimationAt(s, slot).value.target
    ensures forall w :: Inv(s, w) ==> Inv(r, w)
  {
    var a := AnimationAt(s, slot).value.(running := false);
    var t := s.(geometry := a.target);
    match slot
    case HoverSlot => t.(hover := Some(a))
    case ExpandSlot => t.(expand := Some(a))
    case CollapseSlot => t.(collapse := Some(a))
  }

  /** A toggle from the collapsed mode, once its animation finishes, leaves
      the overlay expanded at the expanded rectangle wherever it had been
      dragged; toggling back and finishing returns it to the collapsed
      rectangle with every label hidden and the resting palette. */
  lemma ToggleRoundTrip(s: IslandState, screenWidth: int)
    requires Inv(s, screenWidth) && !s.expanded
    ensures var e := Finished(Toggled(s, screenWidth), ExpandSlot);
      && e.expanded && e.geometry == ExpandedRect(screenWidth) && e.alpha == 240
      && var c := Finished(Toggled(e, screenWidth), CollapseSlot);
      && !c.expanded && c.geometry == CollapsedRect(screenWidth) && c.alpha == 200 && c.labels == Hidden
      && Inv(c, screenWidth)
  {
  }

  /** Hovering a collapsed overlay and letting the animation finish lands
      on the hover rectangle; leaving lands back on the collapsed one. */
  lemma HoverRoundTrip(s: IslandState, screenWidth: int)
    requires Inv(s, screenWidth) && !s.expanded
    ensures var h := Finished(Entered(s, screenWidth), HoverSlot);
      && h.geometry == HoverRect(screenWidth) && h.alpha == 230
      && var l := Finished(Left(h, screenWidth), HoverSlot);
      && l.geometry == CollapsedRect(screenWidth) && l.alpha == 200 && !l.labels.volumePercent
  {
  }

  /** A drag in the middle of an animation cancels it for good: no finish
      callback can move the window back afterwards. */
  lemma DragCancelsAnimation(s: IslandState, pos: Point, globalPos: Point, slot: Slot)
    requires IsDrag(s.clickPos, pos)
    ensures AnimationAt(Moved(s, true, pos, globalPos), slot).None?
  {
  }

  /** The volume actions of the key and mouse handlers. */
  datatype VolumeCommand = Louder | Softer | Mute

  /** Keys the shortcut handler distinguishes. */
  datatype Key = UpKey | DownKey | EqualKey | MinusKey | MKey | OtherKey

  /** `keyPressEvent`'s dispatch; `ctrl` is the Control modifier. */
  function KeyAction(ctrl: bool, key: Key): (r: Option<VolumeCommand>)
    ensures r.Some? ==> ctrl
    ensures ctrl ==> (r.None? <==> key.OtherKey?)
  {
    if !ctrl then None
    else
      match key
      case UpKey => Some(Louder)
      case EqualKey => Some(Louder)
      case DownKey => Some(Softer)
      case MinusKey => Some(Softer)
      case MKey => Some(Mute)
      case OtherKey => None
  }

  datatype MouseButton = LeftButton | OtherButton

  /** The overlay widget. `screenWidth` is the available screen width,
      read once; `volume` is the volume helper's module state, and
      `hasVolumeUtils` whether that module imported. */
  class DynamicIsland {
    const screenWidth: int
    const hasVolumeUtils: bool
    const volume: VolumeUtils.VolumeControl

    var expanded: bool
    var alpha: int
    var geometry: Rect
    var labels: Labels
    var hoverAnimation: Option<Animation>
    var expandAnimation: Option<Animation>
    var collapseAnimation: Option<Animation>
    var draggable: bool
    var clickPos: Point
    var dragPosition: Point
    var bellTimer: bool
    var bell: BellState
    var volumeView: VolumeView
    var batteryView: BatteryView
    var currentSong: string
    var currentArtist: string
    /** The extra-information label's text. */
    var extraInfoText: string

    function State(): IslandState
      reads this
    {
      IslandState(expanded, alpha, geometry, labels, hoverAnimation, expandAnimation, collapseAnimation,
                  draggable, clickPos, dragPosition, bellTimer, bell)
    }

    /** The invariant every handler keeps (each transition function
        preserves Inv), and the extra-information text that always
        describes the current track. */
    predicate Valid()
      reads this
    {
      Inv(State(), screenWidth) && extraInfoText == NowPlaying(currentSong, currentArtist)
    }

    /** Whether the volume actions do anything. */
    predicate VolumeEnabled() {
      hasVolumeUtils && volume.initialized
    }

    /** `__init__` and `initUI`: collapsed at the top centre, every extra
        label hidden, the sample track, then a first volume and battery
        refresh. */
    constructor (screenWidth: int, hasVolumeUtils: bool, volume: VolumeUtils.VolumeControl,
                 level: Option<real>, mute: Option<bool>, battery: BatteryQuery)
      modifies volume`currentVolume, volume`muteState
      ensures this.screenWidth == screenWidth && this.hasVolumeUtils == hasVolumeUtils && this.volume == volume
      ensures Valid() && State() == Initial(screenWidth)
      ensures currentSong == InitialSong && currentArtist == InitialArtist
      ensures batteryView == BatteryDisplay(battery)
      ensures volume.keyLog == old(volume.keyLog)
      ensures VolumeEnabled() ==>
        && volume.currentVolume == (if level.Some? then level.value else old(volume.currentVolume))
        && volume.muteState == (if mute.Some? then mute.value else old(volume.muteState))
        && volumeView == VolumeDisplay(Some((VolumeUtils.Percentage(volume.currentVolume), volume.muteState)))
      ensures !VolumeEnabled() ==> unchanged(volume) && volumeView == VolumeDisplay(None)
    {
      this.screenWidth := screenWidth;
      this.hasVolumeUtils := hasVolumeUtils;
      this.volume := volume;
      expanded := false;
      currentSong := InitialSong;
      currentArtist := InitialArtist;
      geometry := CollapsedRect(screenWidth);
      alpha := 200;
      hoverAnimation, expandAnimation, collapseAnimation := None, None, None;
      labels := Hidden;
      extraInfoText := NowPlaying(InitialSong, InitialArtist);
      draggable := false;
      clickPos, dragPosition := Point(0, 0), Point(0, 0);
      bellTimer, bell := false, BellStart;
      volumeView := VolumeDisplay(None);
      batteryView := BatteryDisplay(NoBattery);
      new;
      UpdateVolumeInfo(level, mute);
      UpdateBatteryInfo(battery);
    }

    /** What `update_volume_info()` leaves, given what `get_volume()` and
        `get_mute()` queried (`None` when the query failed and the recorded
        value is used). */
    twostate predicate VolumeRefreshed(level: Option<real>, mute: Option<bool>)
      reads this, volume
    {
      && volume.keyLog == old(volume.keyLog)
      && (VolumeEnabled() ==>
            && volume.currentVolume == (if level.Some? then level.value else old(volume.currentVolume))
            && volume.muteState == (if mute.Some? then mute.value else old(volume.muteState))
            && volumeView == VolumeDisplay(Some((VolumeUtils.Percentage(volume.currentVolume), volume.muteState))))
      && (!VolumeEnabled() ==>
            && volume.currentVolume == old(volume.currentVolume)
            && volume.muteState == old(volume.muteState)
            && volumeView == VolumeDisplay(None))
    }

    /** What `volume_up()`, `volume_down()` or `toggle_mute()` leaves: when
        volume control is available, one key press by the helper (the 5%
        step only changes the recorded level), then a refresh of the volume
        labels; otherwise nothing. */
    twostate predicate VolumeCommandDone(cmd: VolumeCommand, f: VolumeUtils.KeyFailure,
                                         level: Option<real>, mute: Option<bool>)
      reads this, volume
    {
      if VolumeEnabled() then
        var v0, m0 := old(volume.currentVolume), old(volume.muteState);
        var ok := !VolumeUtils.Raises(2, f);
        var key := match cmd
          case Louder => VolumeUtils.VolumeUpKey
          case Softer => VolumeUtils.VolumeDownKey
          case Mute => VolumeUtils.VolumeMuteKey;
        var v1 := match cmd
          case Louder => VolumeUtils.Min(1.0, v0 + VolumeUtils.DefaultStep)
          case Softer => VolumeUtils.Max(0.0, v0 - VolumeUtils.DefaultStep)
          case Mute => v0;
        var m1 := if cmd.Mute? then !m0 else m0;
        && volume.keyLog == old(volume.keyLog) + VolumeUtils.Delivered(VolumeUtils.Presses(key, 1), f)
        && volume.currentVolume == (if level.Some? then level.value else if ok then v1 else v0)
        && volume.muteState == (if mute.Some? then mute.value else if ok then m1 else m0)
        && volumeView == VolumeDisplay(Some((VolumeUtils.Percentage(volume.currentVolume), volume.muteState)))
      else
        && volume.keyLog == old(volume.keyLog)
        && volume.currentVolume == old(volume.currentVolume)
        && volume.muteState == old(volume.muteState)
        && volumeView == old(volumeView)
    }

    /** `stop_all_animations()`. */
    method StopAllAnimations()
      modifies this`hoverAnimation, this`expandAnimation, this`collapseAnimation
      ensures State() == Stopped(old(State()))
      ensures old(Valid()) ==> Valid()
    {
      hoverAnimation, expandAnimation, collapseAnimation := None, None, None;
    }

    /** `toggle_expand()`. */
    method ToggleExpand()
      modifies this`expanded, this`labels, this`alpha, this`hoverAnimation, this`expandAnimation, this`collapseAnimation
      ensures State() == Toggled(old(State()), screenWidth)
      ensures old(Valid()) ==> Valid()
    {
      ghost var before := State();
      expanded := !expanded;
      StopAllAnimations();
      var current := geometry;
      if expanded {
        labels := Labels(true, true, true, false, true);
        alpha := 240;
        expandAnimation := Some(Animation(current, ExpandedRect(screenWidth), true));
      } else {
        labels := Hidden;
        alpha := 200;
        collapseAnimation := Some(Animation(current, CollapsedRect(screenWidth), true));
      }
      assert State() == Toggled(before, screenWidth);
    }

    /** `enterEvent`. */
    method EnterEvent()
      modifies this`labels, this`alpha, this`hoverAnimation, this`expandAnimation, this`collapseAnimation
      ensures State() == Entered(old(State()), screenWidth)
      ensures old(Valid()) ==> Valid()
    {
      if !expanded {
        StopAllAnimations();
        var current := geometry;
        alpha := 230;
        labels := labels.(volumePercent := true, battery := true, calendar := true, calendarDetail := false);
        hoverAnimation := Some(Animation(current, HoverRect(screenWidth), true));
      }
    }

    /** `leaveEvent`. */
    method LeaveEvent()
      modifies this`labels, this`alpha, this`hoverAnimation, this`expandAnimation, this`collapseAnimation
      ensures State() == Left(old(State()), screenWidth)
      ensures old(Valid()) ==> Valid()
    {
      if !expanded {
        StopAllAnimations();
        var current := geometry;
        alpha := 200;
        labels := labels.(volumePercent := false, calendarDetail := false, battery := false, calendar := false);
        hoverAnimation := Some(Animation(current, CollapsedRect(screenWidth), true));
      }
    }

    /** `mouseMoveEvent`; `leftHeld` is whether the left button is among
        the held buttons. */
    method MouseMoveEvent(leftHeld: bool, pos: Point, globalPos: Point)
      modifies this`draggable, this`geometry, this`hoverAnimation, this`expandAnimation, this`collapseAnimation
      ensures State() == Moved(old(State()), leftHeld, pos, globalPos)
      ensures old(Valid()) ==> Valid()
    {
      if leftHeld {
        var distance := Manhattan(pos, clickPos);
        if distance > DragThreshold {
          draggable := true;
          StopAllAnimations();
          var top := Sub(globalPos, dragPosition);
          geometry := geometry.(x := top.x, y := top.y);
        }
      }
    }

    /** `mousePressEvent`; `layout` gives the icon labels' rectangles, and
        `f`, `level`, `mute` what the volume helper meets if the volume
        icon was hit. */
    method MousePressEvent(button: MouseButton, layout: Layout, pos: Point, globalPos: Point,
                           f: VolumeUtils.KeyFailure, level: Option<real>, mute: Option<bool>)
      modifies this`labels, this`bell, this`bellTimer, this`clickPos, this`dragPosition, this`draggable
      modifies this`volumeView, volume
      ensures button.OtherButton? ==> unchanged(this) && unchanged(volume)
      ensures button.LeftButton? && PressActionAt(layout, pos).ToggleMute? ==>
        VolumeCommandDone(Mute, f, level, mute) && State() == old(State())
      ensures button.LeftButton? && !PressActionAt(layout, pos).ToggleMute? ==>
        State() == Pressed(old(State()), layout, pos, globalPos) && volumeView == old(volumeView) && unchanged(volume)
      ensures old(Valid()) ==> Valid()
    {
      if button.LeftButton? {
        var action := PressActionAt(layout, pos);
        match action
        case ToggleMute =>
          ToggleMute(f, level, mute);
        case ToggleCalendarDetail =>
          labels := labels.(calendarDetail := !labels.calendarDetail);
        case RingBell =>
          RingBellAnimation();
        case StartGesture =>
          clickPos := pos;
          dragPosition := Sub(globalPos, TopLeft(geometry));
          draggable := false;
      }
    }

    /** `mouseReleaseEvent`. */
    method MouseReleaseEvent(button: MouseButton, layout: Layout, pos: Point)
      modifies this`draggable, this`expanded, this`labels, this`alpha
      modifies this`hoverAnimation, this`expandAnimation, this`collapseAnimation
      ensures button.OtherButton? ==> unchanged(this)
      ensures button.LeftButton? ==> State() == Released(old(State()), screenWidth, layout, pos)
      ensures old(Valid()) ==> Valid()
    {
      if button.LeftButton? {
        if ReleaseToggles(clickPos, pos, geometry, layout) {
          ToggleExpand();
        }
        draggable := false;
      }
    }

    /** `keyPressEvent`; `ctrl` is whether Control is held. */
    method KeyPressEvent(ctrl: bool, key: Key, f: VolumeUtils.KeyFailure, level: Option<real>, mute: Option<bool>)
      modifies this`volumeView, volume
      ensures KeyAction(ctrl, key).None? ==> unchanged(this) && unchanged(volume)
      ensures KeyAction(ctrl, key).Some? ==> VolumeCommandDone(KeyAction(ctrl, key).value, f, level, mute)
      ensures old(Valid()) ==> Valid()
    {
      var action := KeyAction(ctrl, key);
      match action
      case None =>
      case Some(Louder) => VolumeUp(f, level, mute);
      case Some(Softer) => VolumeDown(f, level, mute);
      case Some(Mute) => ToggleMute(f, level, mute);
    }

    /** `volume_up()`. */
    method VolumeUp(f: VolumeUtils.KeyFailure, level: Option<real>, mute: Option<bool>)
      modifies this`volumeView, volume
      ensures VolumeCommandDone(Louder, f, level, mute)
      ensures old(Valid()) ==> Valid()
    {
      if VolumeEnabled() {
        var _ := volume.IncreaseVolume(VolumeUtils.DefaultStep, f);
        UpdateVolumeInfo(level, mute);
      }
    }

    /** `volume_down()`. */
    method VolumeDown(f: VolumeUtils.KeyFailure, level: Option<real>, mute: Option<bool>)
      modifies this`volumeView, volume
      ensures VolumeCommandDone(Softer, f, level, mute)
      ensures old(Valid()) ==> Valid()
    {
      if VolumeEnabled() {
        var _ := volume.DecreaseVolume(VolumeUtils.DefaultStep, f);
        UpdateVolumeInfo(level, mute);
      }
    }

    /** `toggle_mute()`. */
    method ToggleMute(f: VolumeUtils.KeyFailure, level: Option<real>, mute: Option<bool>)
      modifies this`volumeView, volume
      ensures VolumeCommandDone(Mute, f, level, mute)
      ensures old(Valid()) ==> Valid()
    {
      if VolumeEnabled() {
        var _ := volume.ToggleMute(f);
        UpdateVolumeInfo(level, mute);
      }
    }

    /** `update_volume_info()`. */
    method UpdateVolumeInfo(level: Option<real>, mute: Option<bool>)
      modifies this`volumeView, volume`currentVolume, volume`muteState
      ensures VolumeRefreshed(level, mute)
      ensures old(Valid()) ==> Valid()
    {
      if VolumeEnabled() {
        var percent := volume.GetVolumePercentage(level);
        var muted := volume.GetMute(mute);
        volumeView := VolumeDisplay(Some((percent, muted)));
      } else {
        volumeView := VolumeDisplay(None);
      }
    }

    /** `update_battery_info()`, given what the battery query gave. */
    method UpdateBatteryInfo(battery: BatteryQuery)
      modifies this`batteryView
      ensures batteryView == BatteryDisplay(battery)
      ensures old(Valid()) ==> Valid()
    {
      batteryView := BatteryDisplay(battery);
    }

    /** `update_music_info(song, artist)`, the slot of the thread's signal. */
    method UpdateMusicInfo(song: string, artist: string)
      modifies this`currentSong, this`currentArtist, this`extraInfoText
      ensures currentSong == song && currentArtist == artist
      ensures extraInfoText == NowPlaying(song, artist)
      ensures old(Valid()) ==> Valid()
    {
      currentSong := song;
      currentArtist := artist;
      extraInfoText := NowPlaying(song, artist);
    }

    /** `ring_bell_animation()`. */
    method RingBellAnimation()
      modifies this`bell, this`bellTimer
      ensures State() == Rung(old(State()))
      ensures old(Valid()) ==> Valid()
    {
      bell := BellStart;
      bellTimer := true;
    }

    /** `update_bell_rotation()`, run by the wiggle timer. */
    method UpdateBellRotation()
      requires Valid() && bellTimer
      modifies this`bell, this`bellTimer
      ensures State() == BellTicked(old(State()))
      ensures Valid() && bellTimer
    {
      var tick := BellUpdate(bell);
      bell := tick.state;
      // The timer is deleted when the tick reports the wiggle complete.
      bellTimer := !tick.stopped;
    }

    /** A frame of the running animation held in `slot`. */
    method AnimationFrame(slot: Slot, frame: Rect)
      requires AnimationAt(State(), slot).Some? && AnimationAt(State(), slot).value.running
      requires Between(AnimationAt(State(), slot).value, frame)
      modifies this`geometry
      ensures State() == Framed(old(State()), slot, frame)
      ensures old(Valid()) ==> Valid()
    {
      geometry := frame;
    }

    /** The running animation held in `slot` finishes and its callback
        sets the geometry to the target. */
    method AnimationFinished(slot: Slot)
      requires AnimationAt(State(), slot).Some? && AnimationAt(State(), slot).value.running
      modifies this`geometry, this`hoverAnimation, this`expandAnimation, this`collapseAnimation
      ensures State() == Finished(old(State()), slot)
      ensures old(Valid()) ==> Valid()
    {
      match slot
      case HoverSlot =>
        geometry := hoverAnimation.value.target;
        hoverAnimation := Some(hoverAnimation.value.(running := false));
      case ExpandSlot =>
        geometry := expandAnimation.value.target;
        expandAnimation := Some(expandAnimation.value.(running := false));
      case CollapseSlot =>
        geometry := collapseAnimation.value.target;
        collapseAnimation := Some(collapseAnimation.value.(running := false));
    }
  }
}

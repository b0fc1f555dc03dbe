/** The overlay's pure decision logic: the volume icon and battery text
    the feeds select, the bell-wiggle step, pointer hit tests, and the
    three rectangles the overlay animates between. */
module IslandDisplay {
  import opened PyBuiltins

  // ---------------------------------------------------------------------
  // Volume and battery labels
  // ---------------------------------------------------------------------

  /** The volume label's glyph: 🔇, 🔈, 🔉 or 🔊. */
  datatype VolumeIcon = Muted | Silent | Quiet | Loud

  /** The volume label and the percentage label (shown as "{percent}%"). */
  datatype VolumeView = VolumeView(icon: VolumeIcon, percent: int)

  /** Loudness order of the glyphs (muted counts as quietest). */
  function IconRank(i: VolumeIcon): nat {
    match i
    case Muted => 0
    case Silent => 1
    case Quiet => 2
    case Loud => 3
  }

  /** `update_volume_info`: `reading` is `None` when volume control is
      unavailable, otherwise the percentage and the mute flag it read. */
  function VolumeDisplay(reading: Option<(int, bool)>): (r: VolumeView)
    ensures reading.None? ==> r == VolumeView(Loud, 50)
    ensures reading.Some? ==> r.percent == reading.value.0
    ensures reading.Some? ==> (r.icon == Muted <==> reading.value.1)
    ensures reading.Some? && !reading.value.1 ==>
      && (r.icon == Silent <==> reading.value.0 == 0)
      && (r.icon == Quiet <==> reading.value.0 != 0 && reading.value.0 < 50)
      && (r.icon == Loud <==> reading.value.0 >= 50)
  {
    match reading
    case None => VolumeView(Loud, 50)
    case Some((percent, mute)) =>
      var icon := if mute then Muted else if percent == 0 then Silent else if percent < 50 then Quiet else Loud;
      VolumeView(icon, percent)
  }

  /** Partner of VolumeDisplay: for an unmuted volume in range the glyph
      never gets quieter as the volume rises. */
  lemma VolumeIconMonotone(p: int, q: int)
    requires 0 <= p <= q
    ensures IconRank(VolumeDisplay(Some((p, false))).icon) <= IconRank(VolumeDisplay(Some((q, false))).icon)
  {
  }

  /** The battery label's glyph: 🔋, 🔌 or 🪫. */
  datatype BatteryGlyph = Battery | Plug | LowBattery

  /** The battery label: the glyph, followed by "{percent}%" when a
      percentage is shown. */
  datatype BatteryView = BatteryView(glyph: BatteryGlyph, percent: Option<int>)

  /** What `psutil.sensors_battery()` gave: no battery, an exception, or a
      reading (the percentage is a float). */
  datatype BatteryQuery = NoBattery | QueryFailed | Reading(percent: real, plugged: bool)

  /** `update_battery_info`. The charging-at-full text is the literal
      "🔋100%", the same text the unplugged branch would show. */
  function BatteryDisplay(q: BatteryQuery): (r: BatteryView)
    ensures !q.Reading? ==> r == BatteryView(Battery, None)
    ensures q.Reading? ==> r.percent == Some(Trunc(q.percent))
    ensures q.Reading? ==> (r.glyph == Plug <==> q.plugged && Trunc(q.percent) != 100)
    ensures q.Reading? ==> (r.glyph == LowBattery <==> !q.plugged && Trunc(q.percent) <= 20)
  {
    match q
    case NoBattery => BatteryView(Battery, None)
    case QueryFailed => BatteryView(Battery, None)
    case Reading(p, plugged) =>
      var percent := Trunc(p);
      if plugged then
        if percent == 100 then BatteryView(Battery, Some(100)) else BatteryView(Plug, Some(percent))
      else if percent > 80 then BatteryView(Battery, Some(percent))
      else if percent > 20 then BatteryView(Battery, Some(percent))
      else BatteryView(LowBattery, Some(percent))
  }

  // ---------------------------------------------------------------------
  // Bell wiggle
  // ---------------------------------------------------------------------

  /** `bell_rotation_angle` in tenths of a degree (the float values
      15·step/10 and 15 − 30·step/10 are whole tenths),
      `bell_rotation_direction` and `bell_rotation_step`. */
  datatype BellState = BellState(angle: int, direction: int, step: int)

  const BellSteps: int := 10
  /** 15 degrees, in tenths. */
  const BellMaxAngle: int := 150

  /** The state `ring_bell_animation` starts the timer with. */
  const BellStart: BellState := BellState(0, 1, 0)

  /** One timer tick: the new state, and whether the tick stopped the
      timer. */
  datatype BellTick = BellTick(state: BellState, stopped: bool)

  /** `update_bell_rotation`. */
  function BellUpdate(b: BellState): (r: BellTick)
    ensures r.state.direction != b.direction ==> r.state.step == 0
    ensures Swinging(b) ==> Swinging(r.state) && !r.stopped
    ensures Swinging(b) && b.direction == -1 && r.state.direction == 1 ==> r.state.angle == -BellMaxAngle
  {
    var step := b.step + 1;
    if step <= BellSteps then
      var angle := if b.direction == 1 then BellMaxAngle * step / BellSteps
                   else BellMaxAngle - (BellMaxAngle * 2) * step / BellSteps;
      BellTick(BellState(angle, b.direction, step), false)
    else
      var direction := b.direction * -1;
      BellTick(BellState(b.angle, direction, 0), direction == 1 && b.angle == 0)
  }

  /** The states reachable from BellStart: the angle is where the ramp of
      the current direction has got to; at a step of 0 it is the end of
      the previous ramp (or the start value 0). */
  predicate Swinging(b: BellState) {
    && (b.direction == 1 || b.direction == -1)
    && 0 <= b.step <= BellSteps
    && (b.direction == 1 && b.step > 0 ==> b.angle == 15 * b.step)
    && (b.direction == -1 && b.step > 0 ==> b.angle == BellMaxAngle - 30 * b.step)
    && (b.direction == 1 && b.step == 0 ==> b.angle == 0 || b.angle == -BellMaxAngle)
    && (b.direction == -1 && b.step == 0 ==> b.angle == BellMaxAngle)
    && -BellMaxAngle <= b.angle <= BellMaxAngle
  }

  /** The state after `n` ticks. */
  function BellAfter(b: BellState, n: nat): BellState
    decreases n
  {
    if n == 0 then b else BellAfter(BellUpdate(b).state, n - 1)
  }

  /** The completion test (direction back to +1 with the angle at 0) can
      never hold: every flip back to +1 happens at −15 degrees, so the
      wiggle timer, once started, never stops, and the angle stays within
      ±15 degrees. */
  lemma {:induction false} BellNeverStops(n: nat)
    ensures Swinging(BellAfter(BellStart, n))
    ensures !BellUpdate(BellAfter(BellStart, n)).stopped
    ensures -BellMaxAngle <= BellAfter(BellStart, n).angle <= BellMaxAngle
  {
    BellSwings(BellStart, n);
  }

  lemma {:induction false} BellSwings(b: BellState, n: nat)
    requires Swinging(b)
    ensures Swinging(BellAfter(b, n)) && !BellUpdate(BellAfter(b, n)).stopped
    decreases n
  {
    if n > 0 {
      BellSwings(BellUpdate(b).state, n - 1);
    }
  }

  // ---------------------------------------------------------------------
  // Geometry and hit tests
  // ---------------------------------------------------------------------

  datatype Point = Point(x: int, y: int)

  /** A QRect given by its top-left corner and size. */
  datatype Rect = Rect(x: int, y: int, width: int, height: int)

  function Sub(a: Point, b: Point): Point {
    Point(a.x - b.x, a.y - b.y)
  }

  /** `(a - b).manhattanLength()`. */
  function Manhattan(a: Point, b: Point): (d: nat)
    ensures d == 0 <==> a == b
  {
    (if a.x >= b.x then a.x - b.x else b.x - a.x) + (if a.y >= b.y then a.y - b.y else b.y - a.y)
  }

  /** `QRect.contains(point)`: the right and bottom edges are x + w − 1 and
      y + h − 1, and a rectangle of negative size is normalised first. */
  predicate Contains(r: Rect, p: Point) {
    var x2 := r.x + r.width - 1;
    var y2 := r.y + r.height - 1;
    var (left, right) := if x2 < r.x - 1 then (x2, r.x) else (r.x, x2);
    var (top, bottom) := if y2 < r.y - 1 then (y2, r.y) else (r.y, y2);
    left <= p.x <= right && top <= p.y <= bottom
  }

  /** For a rectangle of positive size, containment is the half-open box. */
  lemma ContainsBox(r: Rect, p: Point)
    requires r.width > 0 && r.height > 0
    ensures Contains(r, p) <==> r.x <= p.x < r.x + r.width && r.y <= p.y < r.y + r.height
  {
  }

  /** Movement beyond which a held left button drags the window. */
  const DragThreshold: int := 5

  /** `mouseMoveEvent`'s test. */
  predicate IsDrag(clickPos: Point, pos: Point) {
    Manhattan(pos, clickPos) > DragThreshold
  }

  /** The label rectangles the layout has given the icons, in the
      overlay's own coordinates. */
  datatype Layout = Layout(volumeIcon: Rect, calendarIcon: Rect, bellIcon: Rect)

  /** What a left press does, in `mousePressEvent`'s priority order. */
  datatype PressAction = ToggleMute | ToggleCalendarDetail | RingBell | StartGesture

  function PressActionAt(layout: Layout, pos: Point): (r: PressAction)
    ensures r == ToggleMute <==> Contains(layout.volumeIcon, pos)
    ensures r == ToggleCalendarDetail <==> !Contains(layout.volumeIcon, pos) && Contains(layout.calendarIcon, pos)
    ensures r == RingBell <==>
      !Contains(layout.volumeIcon, pos) && !Contains(layout.calendarIcon, pos) && Contains(layout.bellIcon, pos)
    ensures r == StartGesture <==>
      !Contains(layout.volumeIcon, pos) && !Contains(layout.calendarIcon, pos) && !Contains(layout.bellIcon, pos)
  {
    if Contains(layout.volumeIcon, pos) then ToggleMute
    else if Contains(layout.calendarIcon, pos) then ToggleCalendarDetail
    else if Contains(layout.bellIcon, pos) then RingBell
    else StartGesture
  }

  /** `mouseReleaseEvent`'s test for a click that toggles expansion: the
      release is less than the threshold from the recorded press, the
      recorded press lies inside the overlay (`size` is its geometry; only
      the size counts, as in `self.rect()`), and the release is on neither
      the volume nor the calendar icon. The bell icon is not excluded. */
  predicate ReleaseToggles(clickPos: Point, pos: Point, size: Rect, layout: Layout) {
    && Manhattan(pos, clickPos) < DragThreshold
    && Contains(Rect(0, 0, size.width, size.height), clickPos)
    && !Contains(layout.volumeIcon, pos)
    && !Contains(layout.calendarIcon, pos)
  }

  /** A release that toggles is one the same position would not have
      dragged from; a distance of exactly the threshold neither drags nor
      clicks. */
  lemma ClickIsNotDrag(clickPos: Point, pos: Point, size: Rect, layout: Layout)
    ensures ReleaseToggles(clickPos, pos, size, layout) ==> !IsDrag(clickPos, pos)
    ensures Manhattan(pos, clickPos) == DragThreshold ==>
      !IsDrag(clickPos, pos) && !ReleaseToggles(clickPos, pos, size, layout)
  {
  }

  const OriginalWidth: int := 220
  const OriginalHeight: int := 40
  const TopMargin: int := 10

  /** A rectangle `width` × `height` at the top margin, centred on a
      screen of width `screenWidth` with Python's floor division. */
  function TopCentred(screenWidth: int, width: int, height: int): (r: Rect)
    ensures r.y == TopMargin && r.width == width && r.height == height
    ensures 0 <= screenWidth - (2 * r.x + r.width) <= 1
  {
    Rect((screenWidth - width) / 2, TopMargin, width, height)
  }

  /** The collapsed rectangle (220 × 40). */
  function CollapsedRect(screenWidth: int): Rect {
    TopCentred(screenWidth, OriginalWidth, OriginalHeight)
  }

  /** The hover rectangle (260 × 50). */
  function HoverRect(screenWidth: int): Rect {
    TopCentred(screenWidth, OriginalWidth + 40, OriginalHeight + 10)
  }

  /** The expanded rectangle (320 × 70). */
  function ExpandedRect(screenWidth: int): Rect {
    TopCentred(screenWidth, OriginalWidth + 100, OriginalHeight + 30)
  }

  /** The three rectangles share one horizontal centre exactly (their
      widths differ by even amounts). */
  lemma SameCentre(screenWidth: int)
    ensures 2 * CollapsedRect(screenWidth).x + 220 == 2 * HoverRect(screenWidth).x + 260
    ensures 2 * CollapsedRect(screenWidth).x + 220 == 2 * ExpandedRect(screenWidth).x + 320
  {
  }

  /** The sizes the overlay's window can have. */
  predicate StandardSize(r: Rect) {
    (r.width, r.height) == (220, 40) || (r.width, r.height) == (260, 50) || (r.width, r.height) == (320, 70)
  }
}

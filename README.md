# Hollow Island — a verified model of the overlay's core

Hollow Island is a "dynamic island" overlay for Windows written in PyQt. A small
black pill sits at the top centre of the screen. It grows when the pointer
hovers over it and expands on a click. It shows the volume, the battery, a
calendar and a bell, plus the track that a supported music player is playing.

This project models three parts of it in Dafny and proves properties of them:

- the `DynamicIsland` controller (`dynamic_island.py`). This covers its event
  handlers and geometry animations, the rules that pick the volume glyph and the
  battery text, the bell wiggle timer, and one cycle of the `MusicPlayerThread`
  poll loop;
- the now-playing extraction (`music_utils.py`). This covers the title parser
  for the pattern `^(.*?)\s+-\s+(.*?)$`, the ordered match of the foreground
  window against the table of supported players, the set of running players,
  and the choice of a player's window;
- the volume bookkeeping (`volume_utils.py`). This covers the module state
  `volume_initialized`, `current_volume` and `mute_state`, the clamping setters,
  and the simulated media-key presses, recorded as a log of key events.

Modules:

| file | module | models |
|---|---|---|
| `py_builtins.dfy` | `PyBuiltins` | `None`-or-value results, `str.isspace`, `strip`, `replace(pat, "")`, `int()` on a float |
| `music_utils.dfy` | `MusicUtils` | `music_utils.py` |
| `volume_utils.dfy` | `VolumeUtils` | `volume_utils.py`, with the module globals as the class `VolumeControl` |
| `island_display.dfy` | `IslandDisplay` | the pure decision logic of `dynamic_island.py`: glyphs, bell tick, hit tests, target rectangles |
| `music_thread.dfy` | `MusicThread` | `MusicPlayerThread`: one poll cycle and the change-only signalling |
| `island.dfy` | `Island` | the `DynamicIsland` widget as the class `DynamicIsland`, with each handler also given as a pure transition that keeps the invariant `Inv` |

How the model is built:

- **Inputs instead of I/O.** Whatever the operating system or Qt supplies
  becomes a parameter. That includes:
  - the foreground window, the process list and the window list;
  - the Core Audio readings and the battery reading;
  - the label rectangles the layout computed;
  - the screen width;
  - whether a `keybd_event` call raises.
- **Animations.** A geometry animation is a handle: a start rectangle, a target
  rectangle and a running flag. A frame moves the window to a rectangle that
  lies between start and target. The finish callback pins the geometry to the
  target.
- **Class methods.** Every method of `DynamicIsland` is proved to perform its
  pure transition (`State() == Toggled(old(State()), screenWidth)` and so on).
  Every transition is proved to keep `Inv`:
  - at most one animation is held;
  - the palette alpha and label visibility match the mode;
  - every animation heads for the rectangle of the mode it serves;
  - the window size stays between 220 × 40 and 320 × 70;
  - a running bell timer is in a reachable wiggle state.

In several places the code does something other than its comments, names
and evident intent suggest. The model follows the code and proves what it
actually does:

- A press on the volume, calendar or bell icon acts at press time. Such a press
  does not update `click_pos`. The next release still measures its distance from
  the last recorded press, and the bell icon is not excluded there.
- The bell wiggle never stops once started. Every flip back to direction +1
  happens at −15°, so the completion test (direction +1 and angle 0) never
  holds (`IslandDisplay.BellNeverStops`).
- The "artist - song" reading of the title parser is dead code. It retries the
  very same pattern, so it can never match when the first try failed
  (`MusicUtils.ExtractMusicInfoSpec`).
- A foreground title without a separator gives a song with an empty artist. The
  poll cycle then reports nothing playing and does not look at the other running
  players (`MusicThread.SongWithoutArtistHidesOthers`).
- An idle QQ音乐 window titled just "QQ音乐" is rejected under QQ音乐's own name.
  It is then claimed by 网易云音乐 through the shared window class, which reports
  "QQ音乐" as the song (`MusicUtils.IdleQQWindowReadByNetEase`).
- A drag ends with a click. While dragging, the window follows the pointer so
  that the press point stays under it. The release therefore lands on the
  recorded press point, at distance 0, and toggles the mode, because
  `mouseReleaseEvent` never looks at `draggable` (`Island.DragEndsInToggle`).
  This holds when a press, its moves and its release see the same Qt
  coordinates, widget point = global point − window top-left
  (`Island.WidgetPoint`). The handlers themselves take both points as
  independent inputs.

## Model

| member | source | states |
|---|---|---|
| `PyBuiltins.Strip` | music_utils.py:75 | `strip()` yields an infix of its input that neither starts nor ends with whitespace, and only whitespace is removed around it |
| `PyBuiltins.SpaceRunEnd` | music_utils.py:75 | the run scanned from `i` is all whitespace and stops at the first non-whitespace character or at the end (the leading part `strip()` removes, and the `\s+` runs of the pattern) |
| `PyBuiltins.SpaceRunStart` | music_utils.py:75 | the run scanned back from `j` is all whitespace and stops after the last non-whitespace character at or after `lo` (the trailing part `strip()` removes) |
| `PyBuiltins.StripTrimmed` | music_utils.py:81 | stripping a trimmed string changes nothing, which is why the second `strip()` of each group is idempotent |
| `PyBuiltins.RemoveAll` | music_utils.py:75 | `replace(pat, "")` never lengthens the title, and an empty pattern leaves it as it is |
| `PyBuiltins.RemoveAllAbsent` | music_utils.py:75 | a title in which the player name never occurs is not changed by the removal |
| `PyBuiltins.RemoveAllRepeated` | music_utils.py:75 | a title made only of copies of the player name is emptied by the removal |
| `PyBuiltins.Trunc` | dynamic_island.py:624 | `int()` of a float truncates toward zero: within one below a non-negative value, within one above a negative value |
| `MusicUtils.SeparatorEndSpec` | music_utils.py:79 | at a given start, the separator search finds the longest `\s+-\s+` whose rest has no newline, and reports none exactly when there is none |
| `MusicUtils.FindSeparatorSpec` | music_utils.py:79 | the lazy group 1 stops at the leftmost position where a separator matches, and no match exists when the search fails |
| `MusicUtils.SplitTitleSpec` | music_utils.py:79-81 | the pattern's split fails exactly when no match exists; otherwise it is the leftmost match, with the greedy second `\s+` |
| `MusicUtils.ExtractMusicInfo` | music_utils.py:67-89 | the result is (None, None) exactly for a missing or empty title, and both parts are always stripped |
| `MusicUtils.ExtractMusicInfoSpec` | music_utils.py:67-89 | after removing the player name and stripping, the song is the text before the leftmost separator and the artist the text after it; with no separator the whole title is the song and the artist is empty, so the swapped branch never applies |
| `MusicUtils.NoSpaceNoSplit` | music_utils.py:79-89 | a title without whitespace never splits |
| `MusicUtils.FirstReading` | music_utils.py:103-114 | the early-return loop returns nothing iff no player yields a reading, otherwise the first reading in table order |
| `MusicUtils.CurrentPlayingMusic` | music_utils.py:91-116 | a result exists iff a window is known and some player yields a reading; it is the reading of the first such player in table order |
| `MusicUtils.NetEaseWindowReadAsQQ` | music_utils.py:14-25 | a 网易云音乐 window whose title parses under QQ音乐's name is reported through QQ音乐, which comes first and shares the window class |
| `MusicUtils.IdleQQWindowReadByNetEase` | music_utils.py:103-112 | an idle window titled "QQ音乐" is reported by 网易云音乐 with "QQ音乐" as the song and no artist |
| `MusicUtils.ThirdPlayerWins` | music_utils.py:103-112 | when QQ音乐 and 酷我音乐 make nothing of a window and 网易云音乐 reads it, 网易云音乐's reading is reported |
| `MusicUtils.PlayersFor` | music_utils.py:133-135 | the inner loop appends exactly the players whose process name is the one read |
| `MusicUtils.AppendRunning` | music_utils.py:122-139 | the list built holds exactly the players whose process name occurs among the readable processes |
| `MusicUtils.RunningPlayers` | music_utils.py:118-141 | the deduplicated result is exactly the set of supported players whose process runs |
| `MusicUtils.LookupPlayer` | music_utils.py:147-150 | a name is found iff it is in the table, and the entry found carries that name |
| `MusicUtils.FirstEligible` | music_utils.py:156-171 | the first visible window of the player's process (of its class, when asked) in enumeration order, or none iff there is none |
| `MusicUtils.PlayerWindow` | music_utils.py:143-173 | an unknown player gives none; otherwise the first eligible window of the player's class, else the first eligible window, else none |
| `MusicUtils.MusicFromPlayer` | music_utils.py:175-190 | a result exists iff the player is known, its window exists with a non-zero handle and a non-empty title; it is then the parsed title |
| `VolumeUtils.Presses` | volume_utils.py:91-98 | `n` presses are 2n events alternating key-down and key-up of one key |
| `VolumeUtils.PressesPrefix` | volume_utils.py:91-98 | the events of the first `i` presses are a prefix of those of `n`, followed by the next key-down |
| `VolumeUtils.Delivered` | volume_utils.py:91-105 | a raising key event cuts the log at the failing call |
| `VolumeUtils.Clamp` | volume_utils.py:86 | `max(0.0, min(1.0, level))` lies in [0, 1], and equals the level inside the range and the nearer bound outside it |
| `VolumeUtils.PressCount` | volume_utils.py:89 | `int(abs(level - v) / 0.05) + 1` is at least 1 and is one more than the number of whole 5% steps between the levels |
| `VolumeUtils.Percentage` | volume_utils.py:192 | `int(v * 100)` lies in [0, 100] for v in [0, 1] and truncates v·100 |
| `VolumeUtils.VolumeControl.constructor` | volume_utils.py:13-55 | import-time state: initialised iff COM starts and either both Core Audio queries answer or the shell is created; the level is the one read, even when the mute query then raises, else 0.5; muted only as reported by Core Audio; no key events |
| `VolumeUtils.VolumeControl.SendKey` | volume_utils.py:92-93 | one `keybd_event` call is logged unless it is the failing one |
| `VolumeUtils.VolumeControl.SetVolume` | volume_utils.py:77-105 | uninitialised: False and nothing changes. Otherwise it presses up iff the clamped level is above the recorded one, else down, PressCount times. It records the clamped level and returns True, or stops at a failing event, returns False and keeps the level |
| `VolumeUtils.VolumeControl.PressKeys` | volume_utils.py:91-98 | the log grows by the down/up pairs of the key, cut at the first failing call, and the loop reports success iff no call failed |
| `VolumeUtils.VolumeControl.IncreaseVolume` | volume_utils.py:107-126 | one volume-up press whatever the step; the level becomes min(1, v + step) on success and is kept on failure; [0, 1] is preserved |
| `VolumeUtils.VolumeControl.DecreaseVolume` | volume_utils.py:128-147 | one volume-down press whatever the step; the level becomes max(0, v − step) on success and is kept on failure; [0, 1] is preserved |
| `VolumeUtils.VolumeControl.ToggleMute` | volume_utils.py:149-166 | one mute press; the mute flag flips on success and is kept on failure; nothing when uninitialised |
| `VolumeUtils.VolumeControl.GetVolume` | volume_utils.py:57-75 | the Core Audio level when the query answers, which is also recorded; otherwise the recorded level, unchanged |
| `VolumeUtils.VolumeControl.GetMute` | volume_utils.py:168-186 | the Core Audio mute flag when the query answers, which is also recorded; otherwise the recorded flag, unchanged |
| `VolumeUtils.VolumeControl.GetVolumePercentage` | volume_utils.py:188-192 | `int(get_volume() * 100)`, in [0, 100] for a level in [0, 1] |
| `VolumeUtils.VolumeControl.SetVolumePercentage` | volume_utils.py:194-199 | exactly what `set_volume(p / 100)` does |
| `IslandDisplay.VolumeDisplay` | dynamic_island.py:591-617 | unavailable volume shows 🔊 and 50%; otherwise the percentage read, with 🔇 iff muted, and when unmuted 🔈 iff 0, 🔉 iff below 50, 🔊 iff at least 50 |
| `IslandDisplay.VolumeIconMonotone` | dynamic_island.py:598-606 | for an unmuted volume the glyph never gets quieter as the percentage rises |
| `IslandDisplay.BatteryDisplay` | dynamic_island.py:619-647 | no battery or an error shows 🔋 alone; otherwise the truncated percentage, with 🔌 iff plugged below 100 and 🪫 iff unplugged at 20 or below |
| `IslandDisplay.BellUpdate` | dynamic_island.py:553-575 | a direction flip resets the step; a reachable wiggle state stays reachable and never stops the timer; every flip back to +1 happens at −15° |
| `IslandDisplay.BellNeverStops` | dynamic_island.py:534-575 | after any number of ticks from the rung state, the angle is within ±15° and the next tick does not stop the timer |
| `IslandDisplay.BellSwings` | dynamic_island.py:553-575 | from any reachable wiggle state, every later state is reachable and no tick stops the timer |
| `IslandDisplay.Manhattan` | dynamic_island.py:272 | `manhattanLength()` of the difference is zero iff the points coincide |
| `IslandDisplay.ContainsBox` | dynamic_island.py:675 | `QRect.contains` on a rectangle of positive size is the half-open box [x, x + w) × [y, y + h) |
| `IslandDisplay.PressActionAt` | dynamic_island.py:667-696 | a left press toggles mute iff on the volume icon, else toggles the calendar detail iff on the calendar icon, else rings iff on the bell, else starts a gesture |
| `IslandDisplay.ClickIsNotDrag` | dynamic_island.py:698-711 | judged on the release point alone, a release that toggles lies within the threshold of the recorded press, so that same point would not start a drag; a distance of exactly 5 neither drags nor clicks |
| `IslandDisplay.TopCentred` | dynamic_island.py:125-129 | the rectangle sits 10 from the top with the requested size, centred to within one pixel by floor division |
| `IslandDisplay.SameCentre` | dynamic_island.py:717-726 | the collapsed, hover and expanded rectangles share one horizontal centre |
| `MusicThread.FallbackSearch` | dynamic_island.py:47-55 | the loop over running players finds a song iff some player answers with a non-empty song after only songless answers, and fails iff an exception comes first |
| `MusicThread.Report` | dynamic_island.py:35-81 | sample track without the helper module or on an exception; the foreground song first, else the fallback; kept only when song and artist are both non-empty, otherwise nothing playing |
| `MusicThread.SongWithoutArtistHidesOthers` | dynamic_island.py:43-71 | a foreground song without an artist reports nothing playing whatever the other players show |
| `MusicThread.SystemLookup` | dynamic_island.py:43-53 | given a visiting order listing each running supported player once, the cycle queries the foreground window, then each player in that order |
| `MusicThread.SystemLookupCovers` | dynamic_island.py:47-53 | the fallback asks as many players as are running, and every running player's answer is among the answers |
| `MusicThread.NothingPlaying` | dynamic_island.py:43-71 | with no claimed foreground window and no windows to search, a cycle reports nothing playing, whichever players run |
| `MusicThread.EmissionsChange` | dynamic_island.py:58-81 | the first signal differs from the remembered pair, consecutive signals differ, every signal is a reported pair, and the first cycle of a fresh thread signals |
| `MusicThread.RepeatIsSilent` | dynamic_island.py:58-64 | reporting the same pair twice signals it at most once |
| `MusicThread.MusicPlayerThread.constructor` | dynamic_island.py:29-33 | running, with no pair remembered |
| `MusicThread.MusicPlayerThread.RunCycle` | dynamic_island.py:35-89 | the cycle emits iff its pair differs from the remembered one, emits that pair, and remembers it |
| `MusicThread.MusicPlayerThread.Stop` | dynamic_island.py:94-95 | the loop flag is cleared |
| `MusicThread.MusicPlayerThread.Run` | dynamic_island.py:35-92 | the signals of a run are exactly the change-only emissions of the pairs the cycles report; the last pair is remembered, and with no cycles the remembered pair is unchanged |
| `Island.InitialInv` | dynamic_island.py:98-244 | the state after construction satisfies the invariant |
| `Island.Stopped` | dynamic_island.py:299-310 | no animation is held afterwards and nothing else changes |
| `Island.Toggled` | dynamic_island.py:817-903 | flips the mode and keeps the invariant; expanding shows the extra info, percentage, battery and calendar, hides the detail and starts the expand animation; collapsing hides all five and starts the collapse animation |
| `Island.Entered` | dynamic_island.py:713-757 | no change when expanded; otherwise alpha 230, the hover labels shown without the detail, and one animation to the hover rectangle; keeps the invariant |
| `Island.Left` | dynamic_island.py:759-799 | no change when expanded; otherwise alpha 200, the four labels hidden, and one animation to the collapsed rectangle; keeps the invariant |
| `Island.Moved` | dynamic_island.py:268-284 | with the left button held beyond distance 5 it sets the drag flag, drops every animation and moves the top-left to globalPos − drag_position at the same size; otherwise nothing changes |
| `Island.Pressed` | dynamic_island.py:667-696 | the calendar icon toggles the detail, the bell starts the wiggle, elsewhere the press is recorded; only that last case changes the recorded press |
| `Island.CalendarPressTwice` | dynamic_island.py:679-683 | two presses on the calendar icon restore the state |
| `Island.DragEndsInToggle` | dynamic_island.py:268-284 | a press on no icon, a move beyond the threshold and a release at the final pointer: the window was dragged and the release still toggles the mode |
| `Island.Released` | dynamic_island.py:698-711 | the drag flag is cleared; the mode flips iff the release is a click away from the volume and calendar icons; keeps the invariant |
| `Island.Rung` | dynamic_island.py:534-551 | the wiggle timer runs again from the start state (angle 0, direction +1, step 0), and nothing else changes |
| `Island.BellTicked` | dynamic_island.py:553-575 | a tick keeps the invariant and leaves the timer running |
| `Island.Framed` | dynamic_island.py:506-532 | a frame between start and target keeps the invariant |
| `Island.Finished` | dynamic_island.py:852-853 | the finish callback pins the geometry to the target and keeps the invariant |
| `Island.ToggleRoundTrip` | dynamic_island.py:817-903 | expanding and finishing lands on the 320 × 70 rectangle wherever the window was; collapsing and finishing lands on 220 × 40 with every label hidden and alpha 200 |
| `Island.HoverRoundTrip` | dynamic_island.py:713-799 | entering and finishing lands on the 260 × 50 rectangle; leaving and finishing lands back on 220 × 40 |
| `Island.DragCancelsAnimation` | dynamic_island.py:268-284 | after a drag no animation is held, so no finish callback can move the window back |
| `Island.KeyAction` | dynamic_island.py:942-958 | only Control combinations act; with Control every key but the listed five does nothing |
| `Island.DynamicIsland.constructor` | dynamic_island.py:98-244 | collapsed at the top centre with the extra labels hidden and the sample track, followed by a volume and battery refresh |
| `Island.DynamicIsland.StopAllAnimations` | dynamic_island.py:299-310 | performs `Stopped` |
| `Island.DynamicIsland.ToggleExpand` | dynamic_island.py:817-903 | performs `Toggled` |
| `Island.DynamicIsland.EnterEvent` | dynamic_island.py:713-757 | performs `Entered` |
| `Island.DynamicIsland.LeaveEvent` | dynamic_island.py:759-799 | performs `Left` |
| `Island.DynamicIsland.MouseMoveEvent` | dynamic_island.py:268-284 | performs `Moved` |
| `Island.DynamicIsland.MousePressEvent` | dynamic_island.py:667-696 | other buttons change nothing; on the volume icon it toggles mute and refreshes the volume view; otherwise it performs `Pressed` |
| `Island.DynamicIsland.MouseReleaseEvent` | dynamic_island.py:698-711 | other buttons change nothing; the left button performs `Released` |
| `Island.DynamicIsland.KeyPressEvent` | dynamic_island.py:942-958 | Control with Up or = raises the volume, with Down or − lowers it, with M toggles mute; anything else changes nothing |
| `Island.DynamicIsland.VolumeUp` | dynamic_island.py:649-653 | when volume control is available, one volume-up press and a refresh of the view; otherwise nothing |
| `Island.DynamicIsland.VolumeDown` | dynamic_island.py:655-659 | when volume control is available, one volume-down press and a refresh of the view; otherwise nothing |
| `Island.DynamicIsland.ToggleMute` | dynamic_island.py:661-665 | when volume control is available, one mute press and a refresh of the view; otherwise nothing |
| `Island.DynamicIsland.UpdateVolumeInfo` | dynamic_island.py:591-617 | the view shows the queried percentage and mute flag, or 🔊 50% when volume control is unavailable; no key events |
| `Island.DynamicIsland.UpdateBatteryInfo` | dynamic_island.py:619-647 | the battery view is the one selected for the reading |
| `Island.DynamicIsland.UpdateMusicInfo` | dynamic_island.py:585-589 | the track is stored and the extra-info text reads "正在播放: song - artist" |
| `Island.DynamicIsland.RingBellAnimation` | dynamic_island.py:534-551 | performs `Rung` |
| `Island.DynamicIsland.UpdateBellRotation` | dynamic_island.py:553-583 | performs `BellTicked`; the timer is still running afterwards |
| `Island.DynamicIsland.AnimationFrame` | dynamic_island.py:506-532 | performs `Framed` |
| `Island.DynamicIsland.AnimationFinished` | dynamic_island.py:852-853 | performs `Finished` |

## Left out

- Painting, fonts, style sheets and the HTML rotation string of the bell label (dynamic_island.py:246-255, 577-583) are presentation. Only the palette alpha is kept.
- `QPropertyAnimation` interpolation and the OutQuad easing are not modelled. A frame is any rectangle between the animation's start and target, coordinate by coordinate.
- The non-geometry branch of `create_animation` is never called.
- The methods the class body defines twice are modelled from their later definition only. Python binds that one, so the earlier copies of `mousePressEvent`, `mouseReleaseEvent`, `toggle_expand`, `enterEvent`, `leaveEvent`, `contextMenuEvent` and `keyPressEvent` are dead.
- `QThread` scheduling, `msleep(500)`, `stop`/`wait` and queued signal delivery are concurrency. The thread is modelled as a sequence of poll cycles, and a signal as a returned value.
- `update_time` is not modelled, because it formats `datetime.now()`. The calendar detail text is therefore not modelled either; only its visibility is.
- Context menus, `QShortcut`, `setFocus`/`activateWindow` and `closeEvent` are UI plumbing. The shortcuts call the same `volume_up`/`volume_down`/`toggle_mute` that are modelled.
- The `win32gui`/`win32process`/`psutil` enumeration is taken as inputs: the foreground window, the process names and the top-level windows. An unreadable process name is `None`.
- Only the one regular expression the parser uses is modelled, not the `re` engine.
- The `list(set(...))` order of the running players is not defined by Python, so the thread takes its visiting order as an input, constrained to list each running supported player exactly once.
- An exception inside `get_music_from_specific_player` is an input answer (`Raised`). Exceptions caught inside the other helpers give their documented fallback values.
- The `except` branch of `update_volume_info` is not modelled. The modelled helpers it calls catch their own errors, so it is not reached.
- The screen width is read once, as a constant of the controller. The label rectangles come in as a `Layout` input.
- `bell_animation` is named by `stop_all_animations` but never assigned, so it is not a slot of the model.
- Volume levels are `real`, not Python floats, so float rounding of `abs(level - v) / 0.05` and `v * 100` is not modelled.
- COM initialisation, `pycaw` and `keybd_event` are foreign calls. Their outcomes are inputs: an `AudioInit` recording how each import-time step went, `Option` answers for the Core Audio queries, and a `KeyFailure` for the key events.
- The `print` calls of the volume helper are console output and are not modelled.
- Island.DynamicIsland.UpdateMusicInfo: states the new track and text and the preservation of the invariant, not that the rest of the state is unchanged beyond its `modifies` frame.

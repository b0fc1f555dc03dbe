/** Now-playing extraction: parsing a player's window title into
    (song, artist), matching the foreground window against the table of
    supported players, finding the running players and choosing a
    player's window. The operating system's window and process
    enumeration comes in as sequences. */
module MusicUtils {
  import opened PyBuiltins

  datatype Player = Player(name: string, processName: string, windowClass: string)

  /** The supported players, in declaration order (the order in which a
      Python dict is iterated). */
  const SupportedPlayers: seq<Player> := [
    Player("QQ音乐", "QQMusic.exe", "OrpheusBrowserHost"),
    Player("酷我音乐", "KuwoMusic.exe", "kwplayer_main_window"),
    Player("网易云音乐", "cloudmusic.exe", "OrpheusBrowserHost"),
    Player("汽水音乐", "QSMusic.exe", "QSMainWindowClass"),
    Player("Spotify", "Spotify.exe", "Chrome_WidgetWin_0"),
    Player("Windows Media Player", "wmplayer.exe", "WMPlayerApp")
  ]

  // ---------------------------------------------------------------------
  // The title pattern ^(.*?)\s+-\s+(.*?)$ under re.match
  // ---------------------------------------------------------------------

  /** `t[i..m]` is a whole `\s+-\s+`: a dash at some `j` with nonempty
      whitespace runs on both sides. */
  ghost predicate SeparatorSpan(t: string, i: int, m: int) {
    0 <= i <= m <= |t| &&
    exists j :: i < j < m - 1 && t[j] == '-' && AllSpace(t[i..j]) && AllSpace(t[j + 1..m])
  }

  /** Reference meaning of one match of the pattern on `t`: group 1 is
      `t[..i]`, the separator is `t[i..m]`, group 2 is `t[m..]`; `.` does
      not match a newline, so neither group may hold one. (`$` can only
      match at the very end: the parser applies the pattern to a stripped
      string, which never ends with a newline.) */
  ghost predicate MatchAt(t: string, i: int, m: int) {
    0 <= i <= m <= |t| && '\n' !in t[..i] && SeparatorSpan(t, i, m) && '\n' !in t[m..]
  }

  /** Where a separator starting at `i` ends, if one does. The first `\s+`
      can only stop on the '-', the second is greedy, and the rest, matched
      by `.*?$`, must be free of newlines. */
  function SeparatorEnd(t: string, i: nat): (r: Option<nat>)
    requires i <= |t|
    ensures r.Some? ==> i < r.value <= |t|
  {
    var j := SpaceRunEnd(t, i);
    if i < j < |t| && t[j] == '-' then
      var m := SpaceRunEnd(t, j + 1);
      if j + 1 < m && '\n' !in t[m..] then Some(m) else None
    else None
  }

  /** The lazy `(.*?)` of group 1: try `i`, `i + 1`, ... but never step
      over a newline. */
  function FindSeparator(t: string, i: nat): (r: Option<(nat, nat)>)
    requires i <= |t|
    ensures r.Some? ==> i <= r.value.0 < r.value.1 <= |t|
    decreases |t| - i
  {
    if i == |t| then None
    else match SeparatorEnd(t, i)
      case Some(m) => Some((i, m))
      case None => if t[i] == '\n' then None else FindSeparator(t, i + 1)
  }

  /** `re.match(r"^(.*?)\s+-\s+(.*?)$", t)` as its two groups. */
  function SplitTitle(t: string): Option<(string, string)>
  {
    match FindSeparator(t, 0)
    case Some((i, m)) => Some((t[..i], t[m..]))
    case None => None
  }

  lemma {:induction false} SpaceRunEndExact(t: string, i: nat, j: nat)
    requires i <= j < |t| && AllSpace(t[i..j]) && !IsSpace(t[j])
    ensures SpaceRunEnd(t, i) == j
    decreases j - i
  {
    if i < j {
      assert IsSpace(t[i..j][0]);
      assert t[i + 1..j] == t[i..j][1..];
      SpaceRunEndExact(t, i + 1, j);
    }
  }

  lemma {:induction false} SpaceRunEndCovers(t: string, i: nat, k: nat)
    requires i <= k <= |t| && AllSpace(t[i..k])
    ensures k <= SpaceRunEnd(t, i)
    decreases k - i
  {
    if i < k {
      assert IsSpace(t[i..k][0]);
      assert t[i + 1..k] == t[i..k][1..];
      SpaceRunEndCovers(t, i + 1, k);
    }
  }

  lemma NoNewlineSuffix(t: string, a: nat, b: nat)
    requires a <= b <= |t| && '\n' !in t[a..]
    ensures '\n' !in t[b..]
  {
    assert t[b..] == t[a..][b - a..];
  }

  lemma SeparatorEndSound(t: string, i: nat)
    requires i <= |t| && SeparatorEnd(t, i).Some?
    ensures SeparatorSpan(t, i, SeparatorEnd(t, i).value) && '\n' !in t[SeparatorEnd(t, i).value..]
  {
    var j := SpaceRunEnd(t, i);
    assert t[j] == '-';
  }

  /** The dash of a separator, and the whitespace runs around it. */
  lemma SeparatorDash(t: string, i: nat, m': nat) returns (j: nat)
    requires i <= m' <= |t| && SeparatorSpan(t, i, m')
    ensures i < j && j + 1 < m' && t[j] == '-' && AllSpace(t[i..j]) && AllSpace(t[j + 1..m'])
  {
    j :| i < j < m' - 1 && t[j] == '-' && AllSpace(t[i..j]) && AllSpace(t[j + 1..m']);
  }

  lemma SeparatorEndComplete(t: string, i: nat, m': nat)
    requires i <= m' <= |t| && SeparatorSpan(t, i, m') && '\n' !in t[m'..]
    ensures SeparatorEnd(t, i).Some? && m' <= SeparatorEnd(t, i).value
  {
    var j := SeparatorDash(t, i, m');
    assert !IsSpace(t[j]);
    SpaceRunEndExact(t, i, j);
    SpaceRunEndCovers(t, j + 1, m');
    NoNewlineSuffix(t, m', SpaceRunEnd(t, j + 1));
  }

  /** SeparatorEnd finds the longest separator at `i` that leaves a
      newline-free rest, and reports none exactly when there is none. */
  lemma SeparatorEndSpec(t: string, i: nat)
    requires i <= |t|
    ensures SeparatorEnd(t, i).Some? ==>
      var m := SeparatorEnd(t, i).value;
      SeparatorSpan(t, i, m) && '\n' !in t[m..] &&
      forall m' :: i <= m' <= |t| && SeparatorSpan(t, i, m') && '\n' !in t[m'..] ==> m' <= m
    ensures SeparatorEnd(t, i).None? ==>
      forall m' :: i <= m' <= |t| ==> !(SeparatorSpan(t, i, m') && '\n' !in t[m'..])
  {
    if SeparatorEnd(t, i).Some? {
      SeparatorEndSound(t, i);
    }
    forall m' | i <= m' <= |t| && SeparatorSpan(t, i, m') && '\n' !in t[m'..]
      ensures SeparatorEnd(t, i).Some? && m' <= SeparatorEnd(t, i).value
    {
      SeparatorEndComplete(t, i, m');
    }
  }

  lemma {:induction false} FindSeparatorSpec(t: string, i: nat)
    requires i <= |t| && '\n' !in t[..i]
    ensures FindSeparator(t, i).Some? ==>
      var (a, m) := FindSeparator(t, i).value;
      MatchAt(t, a, m) &&
      (forall a', m' :: i <= a' < a ==> !MatchAt(t, a', m')) &&
      (forall m' :: MatchAt(t, a, m') ==> m' <= m)
    ensures FindSeparator(t, i).None? ==> forall a', m' :: i <= a' ==> !MatchAt(t, a', m')
    decreases |t| - i
  {
    if i == |t| {
      forall a', m' | i <= a' ensures !MatchAt(t, a', m') {
      }
    } else if SeparatorEnd(t, i).Some? {
      SeparatorEndSpec(t, i);
    } else {
      NoMatchAt(t, i);
      if t[i] == '\n' {
        forall a', m' | i < a' ensures !MatchAt(t, a', m') {
          if 0 <= a' <= |t| { assert t[..a'][i] == '\n'; }
        }
      } else {
        assert t[..i + 1] == t[..i] + [t[i]];
        FindSeparatorSpec(t, i + 1);
        assert FindSeparator(t, i) == FindSeparator(t, i + 1);
        if FindSeparator(t, i).Some? {
          var a := FindSeparator(t, i).value.0;
          forall a', m' | i <= a' < a ensures !MatchAt(t, a', m') {
            if a' == i { assert !MatchAt(t, i, m'); }
          }
        }
      }
    }
  }

  /** No match of the pattern has its separator starting where
      SeparatorEnd finds none. */
  lemma NoMatchAt(t: string, i: nat)
    requires i <= |t| && SeparatorEnd(t, i).None?
    ensures forall m' :: !MatchAt(t, i, m')
  {
    forall m' | MatchAt(t, i, m') ensures false {
      SeparatorEndComplete(t, i, m');
    }
  }

  /** SplitTitle is the leftmost match of the pattern, with the greedy
      second `\s+` (so group 2 starts at the first character after the
      separator's whitespace), and it fails exactly when the pattern does
      not match anywhere. */
  lemma SplitTitleSpec(t: string)
    ensures SplitTitle(t).None? <==> forall i, m :: !MatchAt(t, i, m)
    ensures SplitTitle(t).Some? ==> exists i, m ::
      MatchAt(t, i, m) && SplitTitle(t).value == (t[..i], t[m..]) &&
      (forall i', m' :: MatchAt(t, i', m') ==> i <= i') &&
      (forall m' :: MatchAt(t, i, m') ==> m' <= m)
  {
    FindSeparatorSpec(t, 0);
    if FindSeparator(t, 0).Some? {
      var (i, m) := FindSeparator(t, 0).value;
      assert MatchAt(t, i, m);
    }
  }

  // ---------------------------------------------------------------------
  // extract_music_info_from_window_title
  // ---------------------------------------------------------------------

  /** `extract_music_info_from_window_title(title, player_name)`: `None`
      stands for the `(None, None)` result. The source tries the same
      pattern a second time with the groups swapped ("artist - song");
      that branch is kept below and can never be taken. */
  function ExtractMusicInfo(title: Option<string>, playerName: string): (r: Option<(string, string)>)
    ensures r.None? <==> title.None? || title.value == []
    ensures r.Some? ==> Trimmed(r.value.0) && Trimmed(r.value.1)
  {
    if title.None? || title.value == [] then None
    else
      var t := Strip(RemoveAll(title.value, playerName));
      match SplitTitle(t)
      case Some((song, artist)) => Some((Strip(song), Strip(artist)))
      case None =>
        match SplitTitle(t)
        case Some((artist, song)) => Some((Strip(song), Strip(artist)))
        case None => Some((Strip(t), []))
  }

  /** What the title parser returns, in terms of the pattern's meaning:
      with every occurrence of the player's name removed and the title
      stripped, the song is the text before the leftmost separator and
      the artist the text after it, both stripped; with no separator the
      whole cleaned title is the song and the artist is empty. In
      particular the swapped "artist - song" reading never happens. */
  lemma ExtractMusicInfoSpec(title: string, playerName: string)
    requires title != []
    ensures var t := Strip(RemoveAll(title, playerName));
      ((forall i, m :: !MatchAt(t, i, m)) ==> ExtractMusicInfo(Some(title), playerName) == Some((t, []))) &&
      ((exists i, m :: MatchAt(t, i, m)) ==> exists i, m ::
         MatchAt(t, i, m) && (forall i', m' :: MatchAt(t, i', m') ==> i <= i') &&
         ExtractMusicInfo(Some(title), playerName) == Some((Strip(t[..i]), Strip(t[m..]))))
  {
    var t := Strip(RemoveAll(title, playerName));
    SplitTitleSpec(t);
    StripTrimmed(t);
  }

  // ---------------------------------------------------------------------
  // get_current_playing_music
  // ---------------------------------------------------------------------

  /** The foreground window as `get_active_window_info` reports it. */
  datatype WindowInfo = WindowInfo(windowText: string, className: string, processName: string)

  predicate Claims(p: Player, w: WindowInfo) {
    w.processName == p.processName || w.className == p.windowClass
  }

  /** A parsed title whose song is neither empty nor the player's name. */
  predicate HasTitleSong(e: Option<(string, string)>, p: Player) {
    e.Some? && e.value.0 != [] && e.value.0 != p.name
  }

  /** What player `p` makes of the foreground window: the parsed title,
      kept only when `p` claims the window by process or by class and the
      song is neither empty nor the player's own name. */
  function Reading(p: Player, w: WindowInfo): Option<(string, string)>
  {
    if Claims(p, w) then
      var e := ExtractMusicInfo(Some(w.windowText), p.name);
      if HasTitleSong(e, p) then e else None
    else None
  }

  /** The early-return loop over the player table, given the reading each
      player makes of the window, in table order. */
  function FirstReading(readings: seq<Option<(string, string)>>): (r: Option<(string, string)>)
    ensures r.None? <==> forall k :: 0 <= k < |readings| ==> readings[k].None?
    ensures r.Some? ==> exists k :: 0 <= k < |readings| && r == readings[k] &&
                          forall k' :: 0 <= k' < k ==> readings[k'].None?
  {
    if readings == [] then None
    else if readings[0].Some? then readings[0]
    else FirstReading(readings[1..])
  }

  /** What each supported player makes of the window. */
  function Readings(w: WindowInfo): (rs: seq<Option<(string, string)>>)
    ensures |rs| == |SupportedPlayers|
    ensures forall k :: 0 <= k < |rs| ==> rs[k] == Reading(SupportedPlayers[k], w)
  {
    seq(|SupportedPlayers|, k requires 0 <= k < |SupportedPlayers| => Reading(SupportedPlayers[k], w))
  }

  /** `get_current_playing_music()`, given what `get_active_window_info()`
      returned (`None` when the window or its process could not be read). */
  function CurrentPlayingMusic(active: Option<WindowInfo>): (r: Option<(string, string)>)
    ensures r.Some? <==> (active.Some? &&
      exists k :: 0 <= k < |SupportedPlayers| && Reading(SupportedPlayers[k], active.value).Some?)
    ensures r.Some? ==>
      exists k :: 0 <= k < |SupportedPlayers| &&
        r == Reading(SupportedPlayers[k], active.value) &&
        forall k' :: 0 <= k' < k ==> Reading(SupportedPlayers[k'], active.value).None?
  {
    if active.None? then None else FirstReading(Readings(active.value))
  }

  /** QQ音乐 comes before 网易云音乐 and both use the window class
      OrpheusBrowserHost, so a NetEase Cloud Music window whose title
      parses under QQ音乐's name is reported as QQ音乐's reading: the name
      removed from its title is "QQ音乐", never "网易云音乐". */
  lemma NetEaseWindowReadAsQQ(w: WindowInfo, song: string, artist: string)
    requires w.processName == "cloudmusic.exe" && w.className == "OrpheusBrowserHost"
    requires ExtractMusicInfo(Some(w.windowText), "QQ音乐") == Some((song, artist))
    requires song != [] && song != "QQ音乐"
    ensures CurrentPlayingMusic(Some(w)) == Some((song, artist))
  {
    assert Claims(SupportedPlayers[0], w);
    assert Reading(SupportedPlayers[0], w) == Some((song, artist));
  }

  /** An idle QQ音乐 window, titled with the bare player name, is rejected
      under QQ音乐's own name (nothing is left of the title) but then
      claimed by 网易云音乐 through the shared window class, which reports
      the player's name as the song. */
  lemma IdleQQWindowReadByNetEase(w: WindowInfo)
    requires IdleQQ(w)
    ensures CurrentPlayingMusic(Some(w)) == Some(("QQ音乐", ""))
  {
    IdleReadingQQ(w);
    IdleReadingSecond(w);
    IdleReadingNetEase(w);
    ThirdPlayerWins(w, ("QQ音乐", ""));
  }

  /** When the first two players in the table make nothing of a window and
      the third does, the third player's reading is reported. */
  lemma ThirdPlayerWins(w: WindowInfo, music: (string, string))
    requires Reading(SupportedPlayers[0], w).None? && Reading(SupportedPlayers[1], w).None?
    requires Reading(SupportedPlayers[2], w) == Some(music)
    ensures CurrentPlayingMusic(Some(w)) == Some(music)
  {
    var rs := Readings(w);
    assert rs[0].None? && rs[1].None? && rs[2] == Some(music);
    assert rs[1..][1..] == rs[2..];
    assert FirstReading(rs) == FirstReading(rs[1..]);
    assert FirstReading(rs[1..]) == FirstReading(rs[2..]);
  }

  /** A QQ音乐 window titled with the bare player name. */
  predicate IdleQQ(w: WindowInfo) {
    w == WindowInfo("QQ音乐", "OrpheusBrowserHost", "QQMusic.exe")
  }

  lemma IdleReadingQQ(w: WindowInfo)
    requires IdleQQ(w)
    ensures Reading(SupportedPlayers[0], w) == None
  {
    var p := SupportedPlayers[0];
    assert p.name == "QQ音乐" && w.windowText == "QQ音乐";
    IdleTitleUnderOwnName();
    assert !HasTitleSong(ExtractMusicInfo(Some(w.windowText), p.name), p);
  }

  lemma IdleReadingSecond(w: WindowInfo)
    requires IdleQQ(w)
    ensures Reading(SupportedPlayers[1], w) == None
  {
    assert !Claims(SupportedPlayers[1], w);
  }

  lemma IdleReadingNetEase(w: WindowInfo)
    requires IdleQQ(w)
    ensures Reading(SupportedPlayers[2], w) == Some(("QQ音乐", []))
  {
    var p := SupportedPlayers[2];
    assert p.name == "网易云音乐" && w.windowText == "QQ音乐";
    assert Claims(p, w);
    IdleTitleUnderNetEase();
    assert HasTitleSong(ExtractMusicInfo(Some(w.windowText), p.name), p);
  }

  lemma IdleTitleUnderOwnName()
    ensures ExtractMusicInfo(Some("QQ音乐"), "QQ音乐") == Some(([], []))
  {
    var t := "QQ音乐";
    assert t[..|t|] == t && t[|t|..] == [];
    assert RemoveAll(t, t) == RemoveAll([], t);
    assert FindSeparator([], 0) == None;
  }

  lemma IdleTitleUnderNetEase()
    ensures ExtractMusicInfo(Some("QQ音乐"), "网易云音乐") == Some(("QQ音乐", []))
  {
    var t := "QQ音乐";
    assert RemoveAll(t, "网易云音乐") == t;
    StripTrimmed(t);
    NoSpaceNoSplit(t);
  }

  /** A title without whitespace has no separator, so it is taken whole
      as the song. */
  lemma NoSpaceNoSplit(t: string)
    requires forall k :: 0 <= k < |t| ==> !IsSpace(t[k])
    ensures SplitTitle(t) == None
  {
    SplitTitleSpec(t);
    forall i, m | MatchAt(t, i, m) ensures false {
      MatchStartsWithSpace(t, i, m);
    }
  }

  lemma MatchStartsWithSpace(t: string, i: int, m: int)
    requires MatchAt(t, i, m)
    ensures i < |t| && IsSpace(t[i])
  {
    var j :| i < j < m - 1 && t[j] == '-' && AllSpace(t[i..j]) && AllSpace(t[j + 1..m]);
    assert t[i..j][0] == t[i];
  }

  // ---------------------------------------------------------------------
  // get_all_running_players
  // ---------------------------------------------------------------------

  /** The inner loop: the players whose process is called `name`
      (`None` for a process whose name could not be read). */
  function PlayersFor(name: Option<string>, players: seq<Player>): (r: seq<string>)
    ensures forall x :: x in r <==> exists p :: p in players && name == Some(p.processName) && x == p.name
  {
    if players == [] then []
    else
      var rest := PlayersFor(name, players[1..]);
      assert forall p :: p in players <==> p == players[0] || p in players[1..];
      if name == Some(players[0].processName) then [players[0].name] + rest else rest
  }

  /** The outer loop over the processes, with the duplicates the source
      appends. */
  function AppendRunning(procs: seq<Option<string>>): (r: seq<string>)
    ensures forall x :: x in r <==> exists p :: p in SupportedPlayers && Some(p.processName) in procs && x == p.name
  {
    if procs == [] then []
    else
      var rest := AppendRunning(procs[..|procs| - 1]);
      assert forall y :: y in procs <==> y in procs[..|procs| - 1] || y == procs[|procs| - 1];
      rest + PlayersFor(procs[|procs| - 1], SupportedPlayers)
  }

  /** `get_all_running_players()`: `list(set(...))` has no defined order,
      so the result is the set itself. */
  function RunningPlayers(procs: seq<Option<string>>): (r: set<string>)
    ensures r == set p | p in SupportedPlayers && Some(p.processName) in procs :: p.name
  {
    set x | x in AppendRunning(procs)
  }

  // ---------------------------------------------------------------------
  // get_player_window_by_name and get_music_from_specific_player
  // ---------------------------------------------------------------------

  /** A top-level window as `EnumWindows` reports it; `owner` is the
      owning process's name, `None` when the process cannot be opened. */
  datatype Window = Window(hwnd: int, visible: bool, owner: Option<string>, className: string, text: string)

  /** The entry of `players` called `name`, if there is one. */
  function FindByName(players: seq<Player>, name: string): (r: Option<Player>)
    ensures r.Some? <==> exists p :: p in players && p.name == name
    ensures r.Some? ==> r.value in players && r.value.name == name
  {
    if players == [] then None
    else if players[0].name == name then Some(players[0])
    else
      var r := FindByName(players[1..], name);
      assert forall p :: p in players && p.name == name ==> p in players[1..];
      r
  }

  /** `SUPPORTED_PLAYERS[player_name]` behind the `in` test. */
  function LookupPlayer(name: string): (r: Option<Player>)
    ensures r.Some? <==> exists p :: p in SupportedPlayers && p.name == name
    ensures r.Some? ==> r.value in SupportedPlayers && r.value.name == name
  {
    FindByName(SupportedPlayers, name)
  }

  /** The enumeration callback's filter (visible, owned by the player's
      process) and, when `byClass`, the class test of the second loop. */
  predicate Eligible(w: Window, p: Player, byClass: bool) {
    w.visible && w.owner == Some(p.processName) && (byClass ==> w.className == p.windowClass)
  }

  function FirstEligible(ws: seq<Window>, p: Player, byClass: bool): (r: Option<Window>)
    ensures r.None? <==> forall k :: 0 <= k < |ws| ==> !Eligible(ws[k], p, byClass)
    ensures r.Some? ==>
      exists k :: 0 <= k < |ws| && ws[k] == r.value && Eligible(ws[k], p, byClass) &&
        forall k' :: 0 <= k' < k ==> !Eligible(ws[k'], p, byClass)
  {
    if ws == [] then None
    else if Eligible(ws[0], p, byClass) then Some(ws[0])
    else
      FirstEligible(ws[1..], p, byClass)
  }

  /** `get_player_window_by_name(player_name)` over the enumerated windows:
      among the visible windows of the player's process, the first one of
      the player's window class, otherwise the first one, otherwise none;
      none as well for a name that is not in the table. */
  function PlayerWindow(name: string, windows: seq<Window>): (r: Option<Window>)
    ensures LookupPlayer(name).None? ==> r.None?
    ensures LookupPlayer(name).Some? ==> var p := LookupPlayer(name).value;
      ((exists k :: 0 <= k < |windows| && Eligible(windows[k], p, true)) ==>
         exists k :: 0 <= k < |windows| && r == Some(windows[k]) && Eligible(windows[k], p, true) &&
           forall k' :: 0 <= k' < k ==> !Eligible(windows[k'], p, true)) &&
      ((forall k :: 0 <= k < |windows| ==> !Eligible(windows[k], p, true)) ==>
         r.None? == (forall k :: 0 <= k < |windows| ==> !Eligible(windows[k], p, false)) &&
         (r.Some? ==>
            exists k :: 0 <= k < |windows| && r == Some(windows[k]) && Eligible(windows[k], p, false) &&
              forall k' :: 0 <= k' < k ==> !Eligible(windows[k'], p, false)))
  {
    match LookupPlayer(name)
    case None => None
    case Some(p) =>
      var preferred := FirstEligible(windows, p, true);
      if preferred.Some? then preferred else FirstEligible(windows, p, false)
  }

  /** `get_music_from_specific_player(player_name)`: nothing for an unknown
      player, a missing (or zero) window handle, or an empty window text;
      otherwise the parsed title of the chosen window. */
  function MusicFromPlayer(name: string, windows: seq<Window>): (r: Option<(string, string)>)
    ensures r.Some? <==> (LookupPlayer(name).Some? && PlayerWindow(name, windows).Some? &&
      PlayerWindow(name, windows).value.hwnd != 0 && PlayerWindow(name, windows).value.text != [])
    ensures r.Some? ==> r == ExtractMusicInfo(Some(PlayerWindow(name, windows).value.text), name)
  {
    if LookupPlayer(name).None? then None
    else
      var w := PlayerWindow(name, windows);
      if w.None? || w.value.hwnd == 0 then None
      else if w.value.text == [] then None
      else ExtractMusicInfo(Some(w.value.text), name)
  }
}

/** The background thread that polls for the playing track every 500 ms:
    one cycle's lookup (foreground window first, then the running players
    one by one), the reduction of what it found to the pair it reports,
    and the change test that decides whether the pair is signalled. */
module MusicThread {
  import opened PyBuiltins
  import opened MusicUtils

  /** What is reported when nothing is playing. */
  const NoMusic: (string, string) := ("无音乐播放", "")
  /** What is reported without the helper module, or after an exception. */
  const SampleMusic: (string, string) := ("示例音乐", "示例艺术家")

  /** The answer of one `get_music_from_specific_player` call: its
      `(song, artist)` (`None` for `(None, None)`), or an exception, which
      this call, unlike the other helpers, does not catch itself. */
  datatype PlayerQuery = Answered(music: Option<(string, string)>) | Raised

  /** What one cycle's helper calls returned: the foreground-window
      reading, and the answers of the running players in the order the
      loop visits them (the order of `list(set(...))`, which is not
      defined, so it is part of the input). The loop stops at the first
      answer with a non-empty song, so later entries are not consulted. */
  datatype Lookup = Lookup(active: Option<(string, string)>, fallback: seq<PlayerQuery>)

  /** Python truthiness of the song of a `(song, artist)` result. */
  predicate HasSong(m: Option<(string, string)>) {
    m.Some? && m.value.0 != []
  }

  datatype Search = Found(music: (string, string)) | NotFound | Failed

  /** The fallback loop over the running players. */
  function FallbackSearch(qs: seq<PlayerQuery>): (r: Search)
    ensures r.Found? <==> exists k :: 0 <= k < |qs| && qs[k].Answered? && HasSong(qs[k].music) && Skipped(qs, k)
    ensures r.Failed? <==> exists k :: 0 <= k < |qs| && qs[k].Raised? && Skipped(qs, k)
    ensures r.Found? ==> exists k :: 0 <= k < |qs| && qs[k] == Answered(Some(r.music)) && Skipped(qs, k)
    ensures r.Found? ==> r.music.0 != []
  {
    if qs == [] then NotFound
    else
      match qs[0]
      case Raised => Failed
      case Answered(m) =>
        if HasSong(m) then Found(m.value)
        else
          var r := FallbackSearch(qs[1..]);
          assert forall k :: 0 < k < |qs| ==> (Skipped(qs, k) <==> Skipped(qs[1..], k - 1));
          r
  }

  /** Every answer before index `k` came back without a song. */
  predicate Skipped(qs: seq<PlayerQuery>, k: int)
    requires 0 <= k <= |qs|
  {
    forall j :: 0 <= j < k ==> qs[j].Answered? && !HasSong(qs[j].music)
  }

  /** The pair one cycle settles on. Without the helper module it is the
      sample track. Otherwise the foreground reading is used when its song
      is non-empty, else the first running player with a song; an
      exception in that search gives the sample track. The pair is kept
      only when both song and artist are non-empty, and is otherwise
      replaced by the nothing-playing pair: a reading with a song but no
      artist is reported as nothing playing, and stops the search. */
  function Report(hasMusicUtils: bool, l: Lookup): (r: (string, string))
    ensures !hasMusicUtils ==> r == SampleMusic
    ensures r == SampleMusic || r == NoMusic || (r.0 != [] && r.1 != [])
    ensures r.1 == [] ==> r == NoMusic
    ensures hasMusicUtils && HasSong(l.active) ==>
      r == (if l.active.value.1 != [] then l.active.value else NoMusic)
    ensures hasMusicUtils && !HasSong(l.active) ==>
      match FallbackSearch(l.fallback)
      case Failed => r == SampleMusic
      case NotFound => r == NoMusic
      case Found(m) => r == (if m.1 != [] then m else NoMusic)
  {
    if !hasMusicUtils then SampleMusic
    else
      var found :=
        if HasSong(l.active) then Found(l.active.value)
        else FallbackSearch(l.fallback);
      match found
      case Failed => SampleMusic
      case NotFound => NoMusic
      case Found((song, artist)) =>
        if song != [] && artist != [] then (song, artist) else NoMusic
  }

  /** A foreground title without a separator has a song but no artist,
      so the cycle reports nothing playing even when another running
      player shows a full "song - artist" title. */
  lemma SongWithoutArtistHidesOthers(song: string, fallback: seq<PlayerQuery>)
    requires song != []
    ensures Report(true, Lookup(Some((song, [])), fallback)) == NoMusic
  {
  }

  /** The visiting order of `list(set(running_players))`: each running
      supported player exactly once, in an order Python leaves open. */
  ghost predicate RunningOrder(procs: seq<Option<string>>, order: seq<string>) {
    && (forall x :: x in order <==> x in RunningPlayers(procs))
    && (forall a, b :: 0 <= a < b < |order| ==> order[a] != order[b])
  }

  /** A sequence without repetitions has as many elements as its set. */
  lemma {:induction false} DistinctCard(xs: seq<string>)
    requires forall a, b :: 0 <= a < b < |xs| ==> xs[a] != xs[b]
    ensures |set x | x in xs| == |xs|
  {
    if xs != [] {
      var rest := xs[1..];
      forall a, b | 0 <= a < b < |rest| ensures rest[a] != rest[b] {
        assert rest[a] == xs[a + 1] && rest[b] == xs[b + 1];
      }
      DistinctCard(rest);
      assert (set x | x in xs) == {xs[0]} + (set x | x in rest);
    }
  }

  /** A visiting order lists every running player at some position, and
      is exactly as long as there are running players. */
  lemma OrderCovers(procs: seq<Option<string>>, order: seq<string>)
    requires RunningOrder(procs, order)
    ensures |order| == |RunningPlayers(procs)|
    ensures forall name :: name in RunningPlayers(procs) ==> exists k :: 0 <= k < |order| && order[k] == name
  {
    DistinctCard(order);
    assert (set x | x in order) == RunningPlayers(procs);
  }

  /** The cycle's lookup in terms of the helper functions: the
      foreground reading, then the running players, enumerated from the
      processes `procs`, in the visiting order `order`, each answering
      from the enumerated windows. */
  function SystemLookup(active: Option<WindowInfo>, procs: seq<Option<string>>, order: seq<string>,
                        windows: seq<Window>): (l: Lookup)
    requires RunningOrder(procs, order)
    ensures l.active == CurrentPlayingMusic(active)
    ensures |l.fallback| == |order|
    ensures forall k :: 0 <= k < |order| ==> l.fallback[k] == Answered(MusicFromPlayer(order[k], windows))
  {
    Lookup(CurrentPlayingMusic(active), seq(|order|, k requires 0 <= k < |order| => Answered(MusicFromPlayer(order[k], windows))))
  }

  /** The fallback search asks every running supported player once: one
      answer per running player, and each running player's answer is among
      them. */
  lemma SystemLookupCovers(active: Option<WindowInfo>, procs: seq<Option<string>>, order: seq<string>,
                           windows: seq<Window>)
    requires RunningOrder(procs, order)
    ensures |SystemLookup(active, procs, order, windows).fallback| == |RunningPlayers(procs)|
    ensures forall name :: name in RunningPlayers(procs) ==>
      Answered(MusicFromPlayer(name, windows)) in SystemLookup(active, procs, order, windows).fallback
  {
    OrderCovers(procs, order);
    var l := SystemLookup(active, procs, order, windows);
    forall name | name in RunningPlayers(procs)
      ensures Answered(MusicFromPlayer(name, windows)) in l.fallback
    {
      var k :| 0 <= k < |order| && order[k] == name;
      assert l.fallback[k] == Answered(MusicFromPlayer(name, windows));
    }
  }

  /** With no supported player claiming the foreground window and no
      top-level windows to search, a cycle reports nothing playing,
      whichever running players are visited. */
  lemma NothingPlaying(active: Option<WindowInfo>, procs: seq<Option<string>>, order: seq<string>)
    requires CurrentPlayingMusic(active).None? && RunningOrder(procs, order)
    ensures Report(true, SystemLookup(active, procs, order, [])) == NoMusic
  {
    var l := SystemLookup(active, procs, order, []);
    forall k | 0 <= k < |order|
      ensures l.fallback[k] == Answered(None)
    {
      assert PlayerWindow(order[k], []).None?;
    }
    assert FallbackSearch(l.fallback) == NotFound;
  }

  /** The thread's remembered pair before and after a cycle; `None` until
      the first cycle. */
  datatype Seen = Seen(song: Option<string>, artist: Option<string>)

  const Unseen: Seen := Seen(None, None)

  /** Whether reporting `out` changes the remembered pair. */
  predicate Changes(last: Seen, out: (string, string)) {
    Some(out.0) != last.song || Some(out.1) != last.artist
  }

  /** The signals emitted over a run of cycles that report `outs`, starting
      from the remembered pair `last`. */
  function Emissions(last: Seen, outs: seq<(string, string)>): seq<(string, string)>
    decreases |outs|
  {
    if outs == [] then []
    else
      var next := Seen(Some(outs[0].0), Some(outs[0].1));
      (if Changes(last, outs[0]) then [outs[0]] else []) + Emissions(next, outs[1..])
  }

  /** What the signals promise: the first differs from the remembered
      pair, no two consecutive signals carry the same pair, every signal is
      a reported pair, and a run that reports something signals at least
      once from the initial state. */
  lemma {:induction false} EmissionsChange(last: Seen, outs: seq<(string, string)>)
    ensures var e := Emissions(last, outs);
      && (e != [] ==> Changes(last, e[0]))
      && (forall k :: 0 <= k < |e| - 1 ==> e[k] != e[k + 1])
      && (forall k :: 0 <= k < |e| ==> e[k] in outs)
      && (last == Unseen && outs != [] ==> e != [] && e[0] == outs[0])
    decreases |outs|
  {
    if outs != [] {
      var next := Seen(Some(outs[0].0), Some(outs[0].1));
      var rest := Emissions(next, outs[1..]);
      EmissionsChange(next, outs[1..]);
      forall k | 0 <= k < |rest|
        ensures rest[k] in outs
      {
        assert rest[k] in outs[1..];
      }
      if rest != [] && !Changes(last, outs[0]) {
        // The remembered pair was already outs[0], and rest[0] differs
        // from it.
        assert Changes(next, rest[0]);
      }
    }
  }

  /** Reporting the same pair twice in a row signals it at most once. */
  lemma RepeatIsSilent(last: Seen, out: (string, string))
    ensures |Emissions(last, [out, out])| <= 1
  {
    var next := Seen(Some(out.0), Some(out.1));
    assert [out, out][1..] == [out];
    assert !Changes(next, out);
    assert Emissions(next, [out]) == [];
  }

  /** `MusicPlayerThread`. */
  class MusicPlayerThread {
    const hasMusicUtils: bool
    var running: bool
    var currentSong: Option<string>
    var currentArtist: Option<string>

    constructor (hasMusicUtils: bool)
      ensures this.hasMusicUtils == hasMusicUtils
      ensures running && currentSong.None? && currentArtist.None?
    {
      this.hasMusicUtils := hasMusicUtils;
      running := true;
      currentSong := None;
      currentArtist := None;
    }

    function Remembered(): Seen
      reads this
    {
      Seen(currentSong, currentArtist)
    }

    /** One pass of the loop body: the pair is remembered and returned as
        the emitted signal only when it differs from the remembered one. */
    method RunCycle(l: Lookup) returns (signal: Option<(string, string)>)
      modifies this`currentSong, this`currentArtist
      ensures var out := Report(hasMusicUtils, l);
        && (signal.Some? <==> Changes(old(Remembered()), out))
        && (signal.Some? ==> signal.value == out)
        && Remembered() == Seen(Some(out.0), Some(out.1))
    {
      var out := Report(hasMusicUtils, l);
      if Some(out.0) != currentSong || Some(out.1) != currentArtist {
        currentSong := Some(out.0);
        currentArtist := Some(out.1);
        signal := Some(out);
      } else {
        signal := None;
      }
    }

    /** `stop()`: the loop ends after the cycle in progress. */
    method Stop()
      modifies this`running
      ensures !running
    {
      running := false;
    }

    /** `run()` over the cycles that happen while the thread runs, one
        lookup per cycle: the signals are those Emissions describes for the
        reported pairs. The 500 ms sleep between cycles is not modelled. */
    method Run(cycles: seq<Lookup>) returns (signals: seq<(string, string)>)
      modifies this`currentSong, this`currentArtist
      ensures signals == Emissions(old(Remembered()), Reports(hasMusicUtils, cycles))
      ensures cycles != [] ==>
        var last := Report(hasMusicUtils, cycles[|cycles| - 1]);
        Remembered() == Seen(Some(last.0), Some(last.1))
    ensures cycles == [] ==> Remembered() == old(Remembered())
    {
      signals := [];
      ghost var outs := Reports(hasMusicUtils, cycles);
      ghost var start := Remembered();
      var i := 0;
      while i < |cycles|
        invariant 0 <= i <= |cycles|
        invariant signals + Emissions(Remembered(), outs[i..]) == Emissions(start, outs)
        invariant i > 0 ==> Remembered() == Seen(Some(outs[i - 1].0), Some(outs[i - 1].1))
        invariant i == 0 ==> Remembered() == start
      {
        ghost var before := Remembered();
        var signal := RunCycle(cycles[i]);
        RunStep(start, outs, i, before, signals, signal, Remembered());
        if signal.Some? {
          signals := signals + [signal.value];
        }
        i := i + 1;
      }
    }
  }

  /** One cycle's share of Emissions. */
  lemma EmissionsStep(last: Seen, outs: seq<(string, string)>, i: nat)
    requires i < |outs|
    ensures Emissions(last, outs[i..]) ==
      (if Changes(last, outs[i]) then [outs[i]] else []) + Emissions(Seen(Some(outs[i].0), Some(outs[i].1)), outs[i + 1..])
  {
    assert outs[i..][0] == outs[i];
    assert outs[i..][1..] == outs[i + 1..];
  }

  /** The loop invariant of Run survives a cycle that signals as RunCycle
      promises. */
  lemma RunStep(start: Seen, outs: seq<(string, string)>, i: nat, before: Seen,
                earlier: seq<(string, string)>, signal: Option<(string, string)>, after: Seen)
    requires i < |outs|
    requires earlier + Emissions(before, outs[i..]) == Emissions(start, outs)
    requires signal.Some? <==> Changes(before, outs[i])
    requires signal.Some? ==> signal.value == outs[i]
    requires after == Seen(Some(outs[i].0), Some(outs[i].1))
    ensures (if signal.Some? then earlier + [signal.value] else earlier) + Emissions(after, outs[i + 1..])
      == Emissions(start, outs)
  {
    var step := if signal.Some? then [outs[i]] else [];
    EmissionsStep(before, outs, i);
    assert earlier + (step + Emissions(after, outs[i + 1..])) == (earlier + step) + Emissions(after, outs[i + 1..]);
  }

  /** The pair each cycle reports. */
  function Reports(hasMusicUtils: bool, cycles: seq<Lookup>): (r: seq<(string, string)>)
    ensures |r| == |cycles|
    ensures forall k :: 0 <= k < |cycles| ==> r[k] == Report(hasMusicUtils, cycles[k])
  {
    seq(|cycles|, k requires 0 <= k < |cycles| => Report(hasMusicUtils, cycles[k]))
  }
}

/** Volume bookkeeping: the module-level `volume_initialized`,
    `current_volume` and `mute_state` of the volume helper, the clamping
    setters and the mute toggle that update them, and the media-key
    presses they simulate, recorded as a log of key events. The volume is
    a `real`, an idealisation of the Python float. */
module VolumeUtils {
  import opened PyBuiltins

  /** The virtual-key codes the helper presses. */
  datatype VirtualKey = VolumeUpKey | VolumeDownKey | VolumeMuteKey

  /** One `keybd_event` call: key down (flags 0) or key up (KEYEVENTF_KEYUP). */
  datatype KeyEvent = KeyDown(key: VirtualKey) | KeyUp(key: VirtualKey)

  /** Whether the simulated key events fail during one operation:
      `FailsAfter(n)` lets the first `n` calls through and raises on the
      next one. */
  datatype KeyFailure = NoFailure | FailsAfter(n: nat)

  /** How each step of initialisation at import time went: `CoInitialize`,
      the level query of the Core Audio endpoint, its mute query (asked
      only after the level answered), and the creation of the
      `WScript.Shell` fallback. A query that raised is `None`. */
  datatype AudioInit = AudioInit(comInitialized: bool, level: Option<real>, muted: Option<bool>,
                                 shellCreated: bool)

  const DefaultVolume: real := 0.5
  const DefaultStep: real := 0.05

  function Min(a: real, b: real): real { if a <= b then a else b }
  function Max(a: real, b: real): real { if a >= b then a else b }
  function Abs(a: real): real { if a >= 0.0 then a else -a }

  /** `n` presses of `key`: a key-down then a key-up event each. */
  function Presses(key: VirtualKey, n: nat): (r: seq<KeyEvent>)
    ensures |r| == 2 * n
    ensures forall k :: 0 <= k < |r| ==> r[k] == if k % 2 == 0 then KeyDown(key) else KeyUp(key)
  {
    if n == 0 then [] else Presses(key, n - 1) + [KeyDown(key), KeyUp(key)]
  }

  /** The first `i` presses are a prefix of the first `n`; the call after
      them is the next key-down. */
  lemma PressesPrefix(key: VirtualKey, i: nat, n: nat)
    requires i < n
    ensures Presses(key, n)[..2 * i] == Presses(key, i)
    ensures Presses(key, n)[..2 * i + 1] == Presses(key, i) + [KeyDown(key)]
  {
    var p, q := Presses(key, n), Presses(key, i);
    assert forall k :: 0 <= k < 2 * i ==> p[k] == q[k];
    assert p[..2 * i + 1] == p[..2 * i] + [p[2 * i]];
  }

  /** Whether an operation that makes `calls` key-event calls raises. */
  predicate Raises(calls: nat, f: KeyFailure) {
    f.FailsAfter? && f.n < calls
  }

  /** The part of `events` actually sent before a failure, if any. */
  function Delivered(events: seq<KeyEvent>, f: KeyFailure): (r: seq<KeyEvent>)
    ensures r <= events
    ensures |r| == if Raises(|events|, f) then f.n else |events|
  {
    if Raises(|events|, f) then events[..f.n] else events
  }

  /** `max(0.0, min(1.0, level))`. */
  function Clamp(level: real): (r: real)
    ensures 0.0 <= r <= 1.0
    ensures 0.0 <= level <= 1.0 ==> r == level
    ensures level < 0.0 ==> r == 0.0
    ensures level > 1.0 ==> r == 1.0
  {
    Max(0.0, Min(1.0, level))
  }

  /** `int(abs(level - current) / 0.05) + 1`: one more press than the
      number of whole 5% steps between the two levels, so never zero. */
  function PressCount(level: real, current: real): (n: nat)
    ensures n >= 1
    ensures (n - 1) as real * 0.05 <= Abs(level - current) < n as real * 0.05
  {
    Trunc(Abs(level - current) / 0.05) + 1
  }

  /** `int(volume * 100)`. */
  function Percentage(v: real): (p: int)
    ensures 0.0 <= v <= 1.0 ==> 0 <= p <= 100
    ensures v >= 0.0 ==> p as real <= v * 100.0 < p as real + 1.0
  {
    Trunc(v * 100.0)
  }

  /** The helper's module-level state. `initialized` is fixed at import. */
  class VolumeControl {
    const initialized: bool
    var currentVolume: real
    var muteState: bool
    /** Every `keybd_event` call made so far. */
    var keyLog: seq<KeyEvent>

    /** Import-time initialisation. A level that was read is kept even
        when the mute query then raises, and the helper is initialised
        when both queries answer or, failing that, the shell is created. */
    constructor (init: AudioInit)
      ensures initialized <==>
        (init.comInitialized && ((init.level.Some? && init.muted.Some?) || init.shellCreated))
      ensures currentVolume == if init.comInitialized && init.level.Some? then init.level.value else DefaultVolume
      ensures muteState <==> init.comInitialized && init.level.Some? && init.muted == Some(true)
      ensures keyLog == []
    {
      var ok, level, muted := false, DefaultVolume, false;
      if init.comInitialized {
        if init.level.Some? {
          level := init.level.value;
        }
        if init.level.Some? && init.muted.Some? {
          muted := init.muted.value;
          ok := true;
        } else {
          ok := init.shellCreated;
        }
      }
      initialized := ok;
      currentVolume := level;
      muteState := muted;
      keyLog := [];
    }

    /** One `keybd_event` call, the `calls`-th of the current operation. */
    method SendKey(e: KeyEvent, f: KeyFailure, calls: nat) returns (raised: bool)
      modifies this`keyLog
      ensures raised == Raises(calls + 1, f)
      ensures keyLog == if raised then old(keyLog) else old(keyLog) + [e]
    {
      raised := f.FailsAfter? && f.n <= calls;
      if !raised {
        keyLog := keyLog + [e];
      }
    }

    /** `set_volume(level)`: clamps the level, presses volume-up when it is
        above the recorded volume and volume-down otherwise (so an
        unchanged level still presses volume-down once), then records the
        clamped level. A failed key event leaves the volume as it was. */
    method SetVolume(level: real, f: KeyFailure) returns (ok: bool)
      modifies this
      ensures !initialized ==> !ok && unchanged(this)
      ensures initialized ==>
        var target := Clamp(level);
        var presses := Presses(if target > old(currentVolume) then VolumeUpKey else VolumeDownKey,
                               PressCount(target, old(currentVolume)));
        && ok == !Raises(|presses|, f)
        && keyLog == old(keyLog) + Delivered(presses, f)
        && currentVolume == (if ok then target else old(currentVolume))
        && muteState == old(muteState)
    {
      if !initialized {
        return false;
      }
      var target := Clamp(level);
      var steps := PressCount(target, currentVolume);
      var key := if target > currentVolume then VolumeUpKey else VolumeDownKey;
      ok := PressKeys(key, steps, f);
      if ok {
        currentVolume := target;
      }
    }

    /** The loop of `set_volume`: `steps` down/up pairs of `key`, stopping
        at the first call that raises. */
    method PressKeys(key: VirtualKey, steps: nat, f: KeyFailure) returns (ok: bool)
      modifies this`keyLog
      ensures ok == !Raises(2 * steps, f)
      ensures keyLog == old(keyLog) + Delivered(Presses(key, steps), f)
    {
      ghost var presses := Presses(key, steps);
      var i := 0;
      while i < steps
        invariant 0 <= i <= steps
        invariant keyLog == old(keyLog) + Presses(key, i)
        invariant !Raises(2 * i, f)
      {
        PressesPrefix(key, i, steps);
        var raised := SendKey(KeyDown(key), f, 2 * i);
        if raised {
          assert Delivered(presses, f) == presses[..2 * i];
          return false;
        }
        raised := SendKey(KeyUp(key), f, 2 * i + 1);
        if raised {
          assert Delivered(presses, f) == presses[..2 * i + 1];
          return false;
        }
        i := i + 1;
      }
      assert Delivered(presses, f) == presses;
      return true;
    }

    /** `increase_volume(step)`: one volume-up press whatever the step, and
        the recorded volume becomes `min(1.0, volume + step)`. */
    method IncreaseVolume(step: real, f: KeyFailure) returns (ok: bool)
      modifies this
      ensures !initialized ==> !ok && unchanged(this)
      ensures initialized ==>
        && ok == !Raises(2, f)
        && keyLog == old(keyLog) + Delivered(Presses(VolumeUpKey, 1), f)
        && currentVolume == (if ok then Min(1.0, old(currentVolume) + step) else old(currentVolume))
        && muteState == old(muteState)
      ensures step >= 0.0 && 0.0 <= old(currentVolume) <= 1.0 ==> 0.0 <= currentVolume <= 1.0
    {
      if !initialized {
        return false;
      }
      var newVolume := Min(1.0, currentVolume + step);
      var raised := SendKey(KeyDown(VolumeUpKey), f, 0);
      if raised {
        return false;
      }
      raised := SendKey(KeyUp(VolumeUpKey), f, 1);
      if raised {
        return false;
      }
      currentVolume := newVolume;
      return true;
    }

    /** `decrease_volume(step)`: one volume-down press whatever the step,
        and the recorded volume becomes `max(0.0, volume - step)`. */
    method DecreaseVolume(step: real, f: KeyFailure) returns (ok: bool)
      modifies this
      ensures !initialized ==> !ok && unchanged(this)
      ensures initialized ==>
        && ok == !Raises(2, f)
        && keyLog == old(keyLog) + Delivered(Presses(VolumeDownKey, 1), f)
        && currentVolume == (if ok then Max(0.0, old(currentVolume) - step) else old(currentVolume))
        && muteState == old(muteState)
      ensures step >= 0.0 && 0.0 <= old(currentVolume) <= 1.0 ==> 0.0 <= currentVolume <= 1.0
    {
      if !initialized {
        return false;
      }
      var newVolume := Max(0.0, currentVolume - step);
      var raised := SendKey(KeyDown(VolumeDownKey), f, 0);
      if raised {
        return false;
      }
      raised := SendKey(KeyUp(VolumeDownKey), f, 1);
      if raised {
        return false;
      }
      currentVolume := newVolume;
      return true;
    }

    /** `toggle_mute()`: one mute press, and the recorded mute flag flips,
        so two successful toggles restore it. */
    method ToggleMute(f: KeyFailure) returns (ok: bool)
      modifies this
      ensures !initialized ==> !ok && unchanged(this)
      ensures initialized ==>
        && ok == !Raises(2, f)
        && keyLog == old(keyLog) + Delivered(Presses(VolumeMuteKey, 1), f)
        && muteState == (if ok then !old(muteState) else old(muteState))
        && currentVolume == old(currentVolume)
    {
      if !initialized {
        return false;
      }
      var raised := SendKey(KeyDown(VolumeMuteKey), f, 0);
      if raised {
        return false;
      }
      raised := SendKey(KeyUp(VolumeMuteKey), f, 1);
      if raised {
        return false;
      }
      muteState := !muteState;
      return true;
    }

    /** `get_volume()`: the endpoint's level when the Core Audio query
        answers (`Some`), which is also recorded; otherwise the recorded
        level, unchanged. */
    method GetVolume(query: Option<real>) returns (v: real)
      modifies this`currentVolume
      ensures v == currentVolume
      ensures currentVolume == if query.Some? then query.value else old(currentVolume)
    {
      if query.Some? {
        currentVolume := query.value;
      }
      v := currentVolume;
    }

    /** `get_mute()`: like GetVolume, for the mute flag. */
    method GetMute(query: Option<bool>) returns (m: bool)
      modifies this`muteState
      ensures m == muteState
      ensures muteState == if query.Some? then query.value else old(muteState)
    {
      if query.Some? {
        muteState := query.value;
      }
      m := muteState;
    }

    /** `get_volume_percentage()`. */
    method GetVolumePercentage(query: Option<real>) returns (p: int)
      modifies this`currentVolume
      ensures currentVolume == if query.Some? then query.value else old(currentVolume)
      ensures p == Percentage(currentVolume)
      ensures 0.0 <= currentVolume <= 1.0 ==> 0 <= p <= 100
    {
      var v := GetVolume(query);
      p := Percentage(v);
    }

    /** `set_volume_percentage(percentage)`: `set_volume(percentage / 100)`. */
    method SetVolumePercentage(percentage: real, f: KeyFailure) returns (ok: bool)
      modifies this
      ensures !initialized ==> !ok && unchanged(this)
      ensures initialized ==>
        var target := Clamp(percentage / 100.0);
        var presses := Presses(if target > old(currentVolume) then VolumeUpKey else VolumeDownKey,
                               PressCount(target, old(currentVolume)));
        && ok == !Raises(|presses|, f)
        && keyLog == old(keyLog) + Delivered(presses, f)
        && currentVolume == (if ok then target else old(currentVolume))
        && muteState == old(muteState)
    {
      ok := SetVolume(percentage / 100.0, f);
    }
  }
}

/** The earlier player view model as an object: its fields are those of
    LegacyPlayer.Snapshot, and every method leaves the state the matching function of
    module LegacyPlayer computes. */
module LegacyViewModel {
  import opened Base
  import opened Models
  import opened SongLists
  import opened PlaybackEngine
  import Gestures
  import LegacyPlayer
  class PlayerViewModel {
    var ui: LegacyPlayer.PlayerUiState
    var mediaPlayer: Option<Engine>
    var progressUpdating: bool
    /** Whether `getDefaultSensor(TYPE_PROXIMITY)` found a sensor. */
    const sensorAvailable: bool
    var registered: bool
    var sensorState: Gestures.ProximityState
    var waveCount: nat
    var waveGen: nat
    var waveArmed: bool

    function Current(): LegacyPlayer.Snapshot
      reads this
    {
      LegacyPlayer.Snapshot(ui, mediaPlayer, progressUpdating, sensorAvailable, registered,
               Gestures.Gesture(sensorState, waveCount, waveGen, waveArmed))
    }

    ghost predicate Valid()
      reads this
    {
      LegacyPlayer.Valid(Current())
    }

    constructor (hasSensor: bool)
      ensures Valid() && ui.songList == [] && ui.currentSong.None? && !ui.isPlaying && mediaPlayer.None?
      ensures sensorAvailable == hasSensor && !registered && Current().g == Gestures.Initial
    {
      ui := LegacyPlayer.PlayerUiState([], None, false, 0, 0, false, None, None, false, [], false);
      mediaPlayer := None;
      progressUpdating := false;
      sensorAvailable := hasSensor;
      registered := false;
      sensorState := Gestures.Far;
      waveCount := 0;
      waveGen := 0;
      waveArmed := false;
    }

    method PlaySong(song: Song, fault: Option<string>)
      requires Valid()
      modifies this
      ensures Valid()
      ensures Current() == LegacyPlayer.PlaySong(old(Current()), song, fault)
    {
      if mediaPlayer.Some? {
        mediaPlayer := Some(Release(mediaPlayer.value));
      }
      ui := ui.(currentSong := Some(song), isPlaying := true, currentPosition := 0);
      var source := SourceOf(song);
      if source.None? {
        ui := ui.(error := Some(LegacyPlayer.NoSourcePlayMessage));
        return;
      }
      if fault.Some? {
        mediaPlayer := Some(NewBroken(source, true));
        ui := ui.(error := Some(LegacyPlayer.PlayErrorPrefix + fault.value));
      } else {
        mediaPlayer := Some(NewPreparing(source.value, true));
      }
    }

    method PrepareSong(song: Song, fault: Option<string>)
      requires Valid()
      modifies this
      ensures Valid()
      ensures Current() == LegacyPlayer.PrepareSong(old(Current()), song, fault)
    {
      ui := ui.(currentSong := Some(song), isPlaying := false, currentPosition := 0);
      if mediaPlayer.Some? {
        mediaPlayer := Some(Release(mediaPlayer.value));
      }
      var source := SourceOf(song);
      if source.None? {
        ui := ui.(error := Some(LegacyPlayer.NoSourcePrepareMessage));
        return;
      }
      if fault.Some? {
        mediaPlayer := Some(NewBroken(source, false));
        ui := ui.(error := Some(LegacyPlayer.PrepareErrorPrefix + fault.value));
      } else {
        mediaPlayer := Some(NewPreparing(source.value, false));
      }
    }

    method OnPrepared(duration: int)
      requires Valid()
      modifies this
      ensures Valid()
      ensures Current() == LegacyPlayer.PreparedListener(old(Current()), duration)
    {
      if mediaPlayer.None? || mediaPlayer.value.phase != Preparing {
        return;
      }
      var mp := mediaPlayer.value;
      ui := ui.(totalDuration := duration);
      mediaPlayer := Some(PlaybackEngine.OnPrepared(mp));
      if mp.startsWhenPrepared {
        progressUpdating := true;
      }
    }

    method OnCompletion(cause: CompletionCause, fault: Option<string>)
      requires Valid()
      modifies this
      ensures Valid()
      ensures Current() == LegacyPlayer.CompletionListener(old(Current()), cause, fault)
    {
      if mediaPlayer.None? || !Completes(mediaPlayer.value, cause) {
        return;
      }
      mediaPlayer := Some(Complete(mediaPlayer.value, cause));
      SkipNext(fault);
    }

    method TogglePlayPause()
      requires Valid()
      modifies this
      ensures Valid()
      ensures Current() == LegacyPlayer.TogglePlayPause(old(Current()))
    {
      if mediaPlayer.None? {
        return;
      }
      var mp := mediaPlayer.value;
      if mp.playing {
        mediaPlayer := Some(Pause(mp));
        progressUpdating := false;
        ui := ui.(isPlaying := false);
      } else {
        mediaPlayer := Some(Start(mp));
        progressUpdating := true;
        ui := ui.(isPlaying := true);
      }
    }

    method SkipNext(fault: Option<string>)
      requires Valid()
      modifies this
      ensures Valid()
      ensures Current() == LegacyPlayer.SkipNext(old(Current()), fault)
    {
      var list := ui.songList;
      if list == [] {
        return;
      }
      var currentIndex := IndexOf(list, ui.currentSong);
      var nextIndex := if currentIndex == |list| - 1 then 0 else currentIndex + 1;
      PlaySong(list[nextIndex], fault);
    }

    /** `threw` is whether the list access at -2 threw. */
    method SkipPrevious(fault: Option<string>) returns (threw: bool)
      requires Valid()
      modifies this
      ensures Valid()
      ensures LegacyPlayer.SkipPrevious(old(Current()), fault) == LegacyPlayer.Outcome(Current(), threw)
    {
      var list := ui.songList;
      if list == [] {
        return false;
      }
      var currentIndex := IndexOf(list, ui.currentSong);
      var prevIndex := if currentIndex == 0 then |list| - 1 else currentIndex - 1;
      if !(0 <= prevIndex < |list|) {
        return true;
      }
      PlaySong(list[prevIndex], fault);
      threw := false;
    }

    method SeekTo(position: int)
      requires Valid()
      modifies this
      ensures Valid()
      ensures Current() == LegacyPlayer.SeekTo(old(Current()), position)
    {
      if mediaPlayer.Some? {
        mediaPlayer := Some(PlaybackEngine.SeekTo(mediaPlayer.value, position));
      }
      ui := ui.(currentPosition := position);
    }

    method EnableProximitySensor(enable: bool)
      requires Valid()
      modifies this
      ensures Valid()
      ensures Current() == LegacyPlayer.EnableProximitySensor(old(Current()), enable)
    {
      if !sensorAvailable {
        ui := ui.(error := Some(LegacyPlayer.SensorUnavailableMessage));
        return;
      }
      registered := enable;
      ui := ui.(isProximitySensorEnabled := enable);
    }

    /** onSensorChanged, with the near/far comparison done by the caller; the sensor
        service calls it only while this view model is registered. */
    method OnSensorChanged(isNear: bool, now: int, fault: Option<string>) returns (threw: bool)
      requires Valid() && registered
      modifies this
      ensures Valid()
      ensures LegacyPlayer.OnReading(old(Current()), isNear, now, fault) == LegacyPlayer.Outcome(Current(), threw)
    {
      threw := false;
      var previousState := sensorState;
      if isNear && previousState.Far? {
        sensorState := Gestures.Near(now, false, ui.isPlaying);
      } else if !isNear && previousState.Near? {
        sensorState := Gestures.Far;
        if previousState.longPressTriggered {
          if previousState.wasPlaying {
            TogglePlayPause();
          }
        } else {
          waveCount := waveCount + 1;
          waveGen := waveGen + 1;
          waveArmed := true;
        }
      }
    }

    /** The long-press coroutine launched at `startTime`, after its delay. */
    method OnLongPressElapsed(startTime: int, fault: Option<string>) returns (threw: bool)
      requires Valid()
      modifies this
      ensures Valid()
      ensures LegacyPlayer.OnLongPressDelay(old(Current()), startTime, fault) == LegacyPlayer.Outcome(Current(), threw)
    {
      threw := false;
      var stateAfterDelay := sensorState;
      if stateAfterDelay.Near? && stateAfterDelay.startTime == startTime {
        if stateAfterDelay.wasPlaying {
          TogglePlayPause();
        }
        sensorState := stateAfterDelay.(longPressTriggered := true);
      }
    }

    /** The wave job of generation `gen`, after its delay; a cancelled job does not run. */
    method OnWaveElapsed(gen: nat, fault: Option<string>) returns (threw: bool)
      requires Valid()
      modifies this
      ensures Valid()
      ensures LegacyPlayer.OnWaveDelay(old(Current()), gen, fault) == LegacyPlayer.Outcome(Current(), threw)
    {
      threw := false;
      if !waveArmed || gen != waveGen {
        return;
      }
      ghost var s0 := Current();
      ghost var reset := s0.g.(waveCount := 0, waveArmed := false);
      if waveCount == 1 {
        SkipNext(fault);
        LegacyPlayer.SkipsIgnoreGesture(s0, reset, fault);
      } else if waveCount >= 2 {
        threw := SkipPrevious(fault);
        LegacyPlayer.SkipsIgnoreGesture(s0, reset, fault);
        if threw {
          return;
        }
      }
      waveCount := 0;
      waveArmed := false;
    }
  }
}

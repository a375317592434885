/** ui/player/PlayerViewModel.kt, the earlier revision of the player view model, which
    registers itself as the proximity listener and keeps the gesture fields inline. Its
    gesture rules are those of module Gestures, with isPlaying read from the UI state;
    it differs from the later revision in what it resets and what it guards:
    - playSong and prepareSong keep the old total duration, and playSong leaves the
      progress job alone;
    - togglePlayPause starts the engine whenever it is not playing;
    - disabling the sensor only unregisters the listener: the gesture state stays and a
      pending wave job still runs;
    - skipPrevious indexes the list at -2 when the current song is not in it, which throws.
    A thrown exception is an outcome (`threw`); the state is then the one before the call. */
module LegacyPlayer {
  import opened Base
  import opened Models
  import opened SongLists
  import opened PlaybackEngine
  import Gestures

  const NoSourcePlayMessage: string := "La canción no tiene una fuente válida."
  const NoSourcePrepareMessage: string := "La canción no tiene una fuente válida (ni red ni local)."
  const PlayErrorPrefix: string := "Error al reproducir la canción: "
  const PrepareErrorPrefix: string := "Error al preparar la canción: "
  const SensorUnavailableMessage: string := "Sensor de proximidad no disponible en este dispositivo."

  /** This revision's UI state: no loading flag. */
  datatype PlayerUiState = PlayerUiState(
    songList: seq<Song>,
    currentSong: Option<Song>,
    isPlaying: bool,
    currentPosition: int,
    totalDuration: int,
    permissionGranted: bool,
    error: Option<string>,
    songToAddToPlaylist: Option<Song>,
    showAddToPlaylistDialog: bool,
    availablePlaylists: seq<Playlist>,
    isProximitySensorEnabled: bool)

  /** The view model: UI state, media player, progress job, whether the device has a
      proximity sensor, whether this view model is registered as its listener, and the
      gesture fields. */
  datatype Snapshot = Snapshot(
    ui: PlayerUiState,
    player: Option<Engine>,
    progressUpdating: bool,
    sensorAvailable: bool,
    registered: bool,
    g: Gestures.Gesture)

  ghost predicate Valid(s: Snapshot)
  {
    && (s.player.Some? ==> Sane(s.player.value))
    && Gestures.Inv(s.g)
    && (!s.sensorAvailable ==> !s.registered)
  }

  /** The result of a call that may throw. */
  datatype Outcome = Outcome(next: Snapshot, threw: bool)

  // ---------------------------------------------------------------------------
  // Playback

  /** playSong: releases the held engine and shows the song as selected and playing from
      0; the total duration and the progress job are left as they were. No source: an
      error, and the released engine stays in place. An exception from the engine: an
      error, with isPlaying still set. */
  function PlaySong(s: Snapshot, song: Song, fault: Option<string>): (r: Snapshot)
    ensures r.ui == s.ui.(currentSong := Some(song), isPlaying := true, currentPosition := 0, error := r.ui.error)
    ensures r.progressUpdating == s.progressUpdating && r.g == s.g && r.registered == s.registered
    ensures r.sensorAvailable == s.sensorAvailable
    ensures r.player.Some? ==> !r.player.value.playing
    ensures SourceOf(song).None? ==> r.ui.error == Some(NoSourcePlayMessage) && r.player == ReleaseIfAny(s.player)
    ensures SourceOf(song).Some? && fault.Some? ==>
      r.ui.error == Some(PlayErrorPrefix + fault.value) && r.player.Some? && r.player.value.phase == Idle
    ensures SourceOf(song).Some? && fault.None? ==>
      r.ui.error == s.ui.error && r.player == Some(NewPreparing(SourceOf(song).value, true))
    ensures Valid(s) ==> Valid(r)
  {
    var released := ReleaseIfAny(s.player);
    var ui := s.ui.(currentSong := Some(song), isPlaying := true, currentPosition := 0);
    match SourceOf(song)
    case None => s.(ui := ui.(error := Some(NoSourcePlayMessage)), player := released)
    case Some(source) =>
      if fault.Some? then s.(ui := ui.(error := Some(PlayErrorPrefix + fault.value)), player := Some(NewBroken(Some(source), true)))
      else s.(ui := ui, player := Some(NewPreparing(source, true)))
  }

  /** prepareSong: like playSong, but shown as not playing and the engine only records
      the duration once prepared. */
  function PrepareSong(s: Snapshot, song: Song, fault: Option<string>): (r: Snapshot)
    ensures r.ui == s.ui.(currentSong := Some(song), isPlaying := false, currentPosition := 0, error := r.ui.error)
    ensures r.progressUpdating == s.progressUpdating && r.g == s.g && r.registered == s.registered
    ensures r.sensorAvailable == s.sensorAvailable
    ensures r.player.Some? ==> !r.player.value.playing
    ensures SourceOf(song).None? ==> r.ui.error == Some(NoSourcePrepareMessage) && r.player == ReleaseIfAny(s.player)
    ensures SourceOf(song).Some? && fault.Some? ==>
      r.ui.error == Some(PrepareErrorPrefix + fault.value) && r.player.Some? && r.player.value.phase == Idle
    ensures SourceOf(song).Some? && fault.None? ==>
      r.ui.error == s.ui.error && r.player == Some(NewPreparing(SourceOf(song).value, false))
    ensures Valid(s) ==> Valid(r)
  {
    var released := ReleaseIfAny(s.player);
    var ui := s.ui.(currentSong := Some(song), isPlaying := false, currentPosition := 0);
    match SourceOf(song)
    case None => s.(ui := ui.(error := Some(NoSourcePrepareMessage)), player := released)
    case Some(source) =>
      if fault.Some? then s.(ui := ui.(error := Some(PrepareErrorPrefix + fault.value)), player := Some(NewBroken(Some(source), false)))
      else s.(ui := ui, player := Some(NewPreparing(source, false)))
  }

  /** The prepared listener, as in the later revision. */
  function PreparedListener(s: Snapshot, duration: int): (r: Snapshot)
    ensures !(s.player.Some? && s.player.value.phase == Preparing) ==> r == s
    ensures s.player.Some? && s.player.value.phase == Preparing ==>
      && r.player == Some(OnPrepared(s.player.value))
      && r.ui == s.ui.(totalDuration := duration)
      && r.progressUpdating == (s.progressUpdating || s.player.value.startsWhenPrepared)
    ensures Valid(s) ==> Valid(r)
  {
    if s.player.Some? && s.player.value.phase == Preparing then
      var e := s.player.value;
      s.(player := Some(OnPrepared(e)), ui := s.ui.(totalDuration := duration),
         progressUpdating := s.progressUpdating || e.startsWhenPrepared)
    else s
  }

  /** togglePlayPause: a playing engine is paused; any other engine is started (which
      only a prepared engine obeys), and isPlaying is set in either case. */
  function TogglePlayPause(s: Snapshot): (r: Snapshot)
    ensures s.player.None? ==> r == s
    ensures s.player.Some? && s.player.value.playing ==>
      r == s.(player := Some(Pause(s.player.value)), progressUpdating := false, ui := s.ui.(isPlaying := false))
    ensures s.player.Some? && !s.player.value.playing ==>
      r == s.(player := Some(Start(s.player.value)), progressUpdating := true, ui := s.ui.(isPlaying := true))
    ensures Valid(s) ==> Valid(r)
  {
    match s.player
    case None => s
    case Some(e) =>
      if e.playing then s.(player := Some(Pause(e)), progressUpdating := false, ui := s.ui.(isPlaying := false))
      else s.(player := Some(Start(e)), progressUpdating := true, ui := s.ui.(isPlaying := true))
  }

  /** Without the duration guard, toggling while the engine is still preparing shows the
      song as playing although the engine does not play, and starts a progress job. */
  lemma ToggleWhilePreparing(s: Snapshot)
    requires s.player.Some? && s.player.value.phase == Preparing && !s.player.value.playing
    ensures var r := TogglePlayPause(s);
      r.ui.isPlaying && r.progressUpdating && !r.player.value.playing
  {
  }

  /** skipNext: the last index goes to 0, any other (the missing song's -1 included) up by one. */
  function SkipNext(s: Snapshot, fault: Option<string>): (r: Snapshot)
    ensures s.ui.songList == [] ==> r == s
    ensures s.ui.songList != [] ==>
      r == PlaySong(s, s.ui.songList[LegacyNextIndex(|s.ui.songList|, IndexOf(s.ui.songList, s.ui.currentSong))], fault)
    ensures r.ui.currentSong == (if s.ui.songList == [] then s.ui.currentSong else NextSong(s.ui.songList, s.ui.currentSong))
    ensures Valid(s) ==> Valid(r)
  {
    var list := s.ui.songList;
    if list == [] then s
    else PlaySong(s, list[LegacyNextIndex(|list|, IndexOf(list, s.ui.currentSong))], fault)
  }

  /** skipPrevious: 0 goes to the last index, any other down by one; a current song that
      is not in the list gives index -2 and the list access throws before anything changes. */
  function SkipPrevious(s: Snapshot, fault: Option<string>): (r: Outcome)
    ensures r.threw <==> s.ui.songList != [] && (s.ui.currentSong.None? || s.ui.currentSong.value !in s.ui.songList)
    ensures r.threw || s.ui.songList == [] ==> r.next == s
    ensures !r.threw && s.ui.songList != [] ==>
      r.next == PlaySong(s, PrevSong(s.ui.songList, s.ui.currentSong).value, fault)
    ensures Valid(s) ==> Valid(r.next)
  {
    var list := s.ui.songList;
    if list == [] then Outcome(s, false)
    else
      var prevIndex := LegacyPrevIndex(|list|, IndexOf(list, s.ui.currentSong));
      if prevIndex < 0 then Outcome(s, true)
      else Outcome(PlaySong(s, list[prevIndex], fault), false)
  }

  function SeekTo(s: Snapshot, position: int): (r: Snapshot)
    ensures r.ui == s.ui.(currentPosition := position)
    ensures s.player.Some? ==> r.player == Some(PlaybackEngine.SeekTo(s.player.value, position))
    ensures s.player.None? ==> r.player.None?
    ensures Valid(s) ==> Valid(r)
  {
    var player := if s.player.Some? then Some(PlaybackEngine.SeekTo(s.player.value, position)) else None;
    s.(player := player, ui := s.ui.(currentPosition := position))
  }

  /** The completion listener, `{ skipNext() }`, run when playback ends or the engine
      reports an error, as in the later revision. */
  function CompletionListener(s: Snapshot, cause: CompletionCause, fault: Option<string>): (r: Snapshot)
    ensures !(s.player.Some? && Completes(s.player.value, cause)) ==> r == s
    ensures s.player.Some? && Completes(s.player.value, cause) ==>
      r == SkipNext(s.(player := Some(Complete(s.player.value, cause))), fault)
    ensures Valid(s) ==> Valid(r)
  {
    if s.player.Some? && Completes(s.player.value, cause) then
      SkipNext(s.(player := Some(Complete(s.player.value, cause))), fault)
    else s
  }

  // ---------------------------------------------------------------------------
  // The inline gesture machine

  /** enableProximitySensor: without a sensor the error is set and the flag stays;
      otherwise the listener is registered or unregistered and the flag follows. The
      gesture state is not reset and a pending wave job is not cancelled. */
  function EnableProximitySensor(s: Snapshot, enable: bool): (r: Snapshot)
    ensures !s.sensorAvailable ==> r == s.(ui := s.ui.(error := Some(SensorUnavailableMessage)))
    ensures s.sensorAvailable ==> r == s.(registered := enable, ui := s.ui.(isProximitySensorEnabled := enable))
    ensures r.g == s.g
    ensures Valid(s) ==> Valid(r)
  {
    if !s.sensorAvailable then s.(ui := s.ui.(error := Some(SensorUnavailableMessage)))
    else s.(registered := enable, ui := s.ui.(isProximitySensorEnabled := enable))
  }

  /** A gesture's effect: togglePlayPause, skipNext or skipPrevious called directly. */
  function Dispatch(s: Snapshot, c: Gestures.Callback, fault: Option<string>): (r: Outcome)
    ensures c == Gestures.TogglePlayPause ==> r == Outcome(TogglePlayPause(s), false)
    ensures c == Gestures.SkipNext ==> r == Outcome(SkipNext(s, fault), false)
    ensures c == Gestures.SkipPrevious ==> r == SkipPrevious(s, fault)
    ensures Valid(s) ==> Valid(r.next)
  {
    match c
    case TogglePlayPause => Outcome(TogglePlayPause(s), false)
    case SkipNext => Outcome(SkipNext(s, fault), false)
    case SkipPrevious => SkipPrevious(s, fault)
  }

  /** The gesture machine takes transition `t`, then its callbacks run. If one throws,
      the event leaves the state it found. */
  function Apply(s: Snapshot, t: Gestures.Transition, fault: Option<string>): (r: Outcome)
    requires |t.out| <= 1
    ensures t.out == [] ==> r == Outcome(s.(g := t.next), false)
    ensures r.threw ==> r.next == s
    ensures Valid(s) && Gestures.Inv(t.next) ==> Valid(r.next)
  {
    if t.out == [] then Outcome(s.(g := t.next), false)
    else
      var d := Dispatch(s.(g := t.next), t.out[0], fault);
      if d.threw then Outcome(s, true) else d
  }

  /** onSensorChanged; the sensor service delivers readings only to a registered listener. */
  function OnReading(s: Snapshot, isNear: bool, now: int, fault: Option<string>): (r: Outcome)
    ensures !s.registered ==> r == Outcome(s, false)
    ensures s.registered ==> r == Apply(s, Gestures.OnSensorChanged(s.g, isNear, now, s.ui.isPlaying), fault)
    ensures Valid(s) ==> Valid(r.next)
  {
    if !s.registered then Outcome(s, false)
    else Apply(s, Gestures.OnSensorChanged(s.g, isNear, now, s.ui.isPlaying), fault)
  }

  /** The long-press coroutine launched at `startTime`, after its delay. */
  function OnLongPressDelay(s: Snapshot, startTime: int, fault: Option<string>): (r: Outcome)
    ensures r == Apply(s, Gestures.OnLongPressElapsed(s.g, startTime), fault)
    ensures Valid(s) ==> Valid(r.next)
  {
    Apply(s, Gestures.OnLongPressElapsed(s.g, startTime), fault)
  }

  /** The wave job of generation `gen`, after its delay. */
  function OnWaveDelay(s: Snapshot, gen: nat, fault: Option<string>): (r: Outcome)
    ensures r == Apply(s, Gestures.OnWaveElapsed(s.g, gen), fault)
    ensures Valid(s) ==> Valid(r.next)
  {
    Apply(s, Gestures.OnWaveElapsed(s.g, gen), fault)
  }

  /** The skips neither read nor change the gesture fields. */
  lemma SkipsIgnoreGesture(s: Snapshot, x: Gestures.Gesture, fault: Option<string>)
    ensures SkipNext(s.(g := x), fault) == SkipNext(s, fault).(g := x)
    ensures SkipPrevious(s.(g := x), fault) == Outcome(SkipPrevious(s, fault).next.(g := x), SkipPrevious(s, fault).threw)
  {
  }

  /** Unlike the later revision, disabling the sensor does not stop a wave that was just
      counted: its job still runs and skips to the next song. */
  lemma WaveSkipsAfterDisable(s: Snapshot)
    requires Valid(s) && s.sensorAvailable && s.g.waveArmed && s.g.waveCount == 1
    requires s.ui.songList != []
    ensures var off := EnableProximitySensor(s, false);
      var r := OnWaveDelay(off, off.g.waveGen, None);
      !off.registered && !r.threw && r.next.ui.currentSong == NextSong(s.ui.songList, s.ui.currentSong)
  {
    var off := EnableProximitySensor(s, false);
    assert Gestures.OnWaveElapsed(off.g, off.g.waveGen).out == [Gestures.SkipNext];
  }

  /** A wave burst over a list whose current song is gone makes the wave job throw. */
  lemma TwoWavesWithMissingSongThrow(s: Snapshot)
    requires Valid(s) && s.g.waveArmed && s.g.waveCount >= 2
    requires s.ui.songList != [] && (s.ui.currentSong.None? || s.ui.currentSong.value !in s.ui.songList)
    ensures OnWaveDelay(s, s.g.waveGen, None).threw
  {
    assert Gestures.OnWaveElapsed(s.g, s.g.waveGen).out == [Gestures.SkipPrevious];
  }

}

/** ui/viewmodel/PlayerViewModel.kt as pure transitions. A `Snapshot` is everything the
    view model owns: the UI state it publishes, the media player it holds (if any),
    whether a progress job is live, and its sensor helper. Each public operation, each
    engine notification and each proximity input is a function from the snapshot before
    to the snapshot after; class PlayerViewModel.PlayerViewModel performs the same steps
    on mutable fields. Results of I/O (network fetches, the media store scan, uploads)
    and exceptions thrown by the media player are parameters. */
module PlayerState {
  import opened Base
  import opened Models
  import opened SongLists
  import opened PlaybackEngine
  import Gestures
  import SensorHelper
  import Repository

  const NoSourcePlayMessage: string := "La canción no tiene una fuente válida."
  const NoSourcePrepareMessage: string := "La canción no tiene una fuente válida (ni red ni local)."
  const PlayErrorPrefix: string := "Error al reproducir la canción: "
  const PrepareErrorPrefix: string := "Error al preparar la canción: "
  const NetworkErrorMessage: string := "Error de red. Mostrando solo canciones locales."
  const SensorUnavailableMessage: string := "Sensor de proximidad no disponible en este dispositivo."
  const PlaylistsErrorMessage: string := "No se pudieron cargar las playlists."
  const UploadingMessage: string := "Subiendo canción al servidor..."
  const UploadErrorPrefix: string := "Error al subir la canción: "
  const UpdateErrorPrefix: string := "Error al actualizar la playlist: "

  datatype PlayerUiState = PlayerUiState(
    songList: seq<Song>,
    currentSong: Option<Song>,
    isPlaying: bool,
    currentPosition: int,
    totalDuration: int,
    permissionGranted: bool,
    isLoading: bool,
    error: Option<string>,
    songToAddToPlaylist: Option<Song>,
    showAddToPlaylistDialog: bool,
    availablePlaylists: seq<Playlist>,
    isProximitySensorEnabled: bool)

  const InitialUi: PlayerUiState := PlayerUiState([], None, false, 0, 0, false, false, None, None, false, [], false)

  /** `progressUpdating` is whether a progress job was launched and not cancelled since. */
  datatype Snapshot = Snapshot(ui: PlayerUiState, player: Option<Engine>, progressUpdating: bool, sensor: SensorHelper.Helper)

  /** The view model right after construction, on a device with or without a proximity sensor. */
  function Initial(sensorAvailable: bool): (r: Snapshot)
    ensures r.ui.songList == [] && r.ui.currentSong.None? && !r.ui.isPlaying
    ensures r.ui.currentPosition == 0 && r.ui.totalDuration == 0
    ensures !r.ui.permissionGranted && !r.ui.isLoading && r.ui.error.None?
    ensures r.ui.songToAddToPlaylist.None? && !r.ui.showAddToPlaylistDialog && r.ui.availablePlaylists == []
    ensures !r.ui.isProximitySensorEnabled
    ensures r.player.None? && !r.progressUpdating
    ensures r.sensor.available == sensorAvailable && !r.sensor.registered && r.sensor.g == Gestures.Initial
  {
    Snapshot(InitialUi, None, false, SensorHelper.Helper(sensorAvailable, false, Gestures.Initial))
  }

  /** What the view model keeps true:
      - only a prepared engine plays;
      - a total duration is known only once the engine holding it is prepared (or has
        failed since), which is what makes the `totalDuration > 0` test of togglePlayPause
        a test for "prepared" on an engine that has not failed;
      - the engine plays, or is preparing in order to play, only with isPlaying set;
      - the sensor helper keeps its own invariant. */
  ghost predicate Valid(s: Snapshot)
  {
    && (s.player.Some? ==> Sane(s.player.value))
    && (s.ui.totalDuration != 0 ==> s.player.Some? && s.player.value.phase in {Prepared, Failed})
    && (s.player.Some? && s.player.value.playing ==> s.ui.isPlaying)
    && (s.player.Some? && s.player.value.phase == Preparing && s.player.value.startsWhenPrepared ==> s.ui.isPlaying)
    && SensorHelper.HelperInv(s.sensor)
  }

  lemma InitialValid(sensorAvailable: bool)
    ensures Valid(Initial(sensorAvailable))
  {
  }

  /** The parts of the UI state that playback does not touch. */
  predicate SameLibrary(a: PlayerUiState, b: PlayerUiState)
  {
    && a.songList == b.songList
    && a.permissionGranted == b.permissionGranted
    && a.isLoading == b.isLoading
    && a.songToAddToPlaylist == b.songToAddToPlaylist
    && a.showAddToPlaylistDialog == b.showAddToPlaylistDialog
    && a.availablePlaylists == b.availablePlaylists
    && a.isProximitySensorEnabled == b.isProximitySensorEnabled
  }

  // ---------------------------------------------------------------------------
  // Playback

  /** playSong: stops the progress job, releases the held engine, shows the song as
      selected and playing from 0 with no duration, then sets up a new engine that starts
      once prepared. A song with no source gets an error and keeps isPlaying set; the
      `return` inside `apply` leaves the released engine in place. An exception from the
      engine (`fault`) gets an error and clears isPlaying. */
  function PlaySong(s: Snapshot, song: Song, fault: Option<string>): (r: Snapshot)
    ensures r.ui.currentSong == Some(song) && r.ui.currentPosition == 0 && r.ui.totalDuration == 0
    ensures !r.progressUpdating && SameLibrary(s.ui, r.ui) && r.sensor == s.sensor
    ensures r.player.Some? ==> !r.player.value.playing
    ensures SourceOf(song).None? ==>
      r.ui.isPlaying && r.ui.error == Some(NoSourcePlayMessage) && r.player == ReleaseIfAny(s.player)
    ensures SourceOf(song).Some? && fault.Some? ==>
      !r.ui.isPlaying && r.ui.error == Some(PlayErrorPrefix + fault.value) && r.player.Some? && r.player.value.phase == Idle
    ensures SourceOf(song).Some? && fault.None? ==>
      r.ui.isPlaying && r.ui.error == s.ui.error && r.player == Some(NewPreparing(SourceOf(song).value, true))
    ensures Valid(s) ==> Valid(r)
  {
    var released := ReleaseIfAny(s.player);
    var ui := s.ui.(currentSong := Some(song), isPlaying := true, currentPosition := 0, totalDuration := 0);
    match SourceOf(song)
    case None =>
      Snapshot(ui.(error := Some(NoSourcePlayMessage)), released, false, s.sensor)
    case Some(source) =>
      if fault.Some? then
        Snapshot(ui.(error := Some(PlayErrorPrefix + fault.value), isPlaying := false), Some(NewBroken(Some(source), true)), false, s.sensor)
      else
        Snapshot(ui, Some(NewPreparing(source, true)), false, s.sensor)
  }

  /** prepareSong: like playSong but the song is shown as not playing, the progress job is
      left alone and the new engine only records the duration once prepared. */
  function PrepareSong(s: Snapshot, song: Song, fault: Option<string>): (r: Snapshot)
    ensures r.ui.currentSong == Some(song) && !r.ui.isPlaying && r.ui.currentPosition == 0 && r.ui.totalDuration == 0
    ensures r.progressUpdating == s.progressUpdating && SameLibrary(s.ui, r.ui) && r.sensor == s.sensor
    ensures r.player.Some? ==> !r.player.value.playing
    ensures SourceOf(song).None? ==> r.ui.error == Some(NoSourcePrepareMessage) && r.player == ReleaseIfAny(s.player)
    ensures SourceOf(song).Some? && fault.Some? ==>
      r.ui.error == Some(PrepareErrorPrefix + fault.value) && r.player.Some? && r.player.value.phase == Idle
    ensures SourceOf(song).Some? && fault.None? ==>
      r.ui.error == s.ui.error && r.player == Some(NewPreparing(SourceOf(song).value, false))
    ensures Valid(s) ==> Valid(r)
  {
    var released := ReleaseIfAny(s.player);
    var ui := s.ui.(currentSong := Some(song), isPlaying := false, currentPosition := 0, totalDuration := 0);
    match SourceOf(song)
    case None =>
      s.(ui := ui.(error := Some(NoSourcePrepareMessage)), player := released)
    case Some(source) =>
      if fault.Some? then
        s.(ui := ui.(error := Some(PrepareErrorPrefix + fault.value)), player := Some(NewBroken(Some(source), false)))
      else
        s.(ui := ui, player := Some(NewPreparing(source, false)))
  }

  /** The prepared listener: records the duration and, for an engine set up by playSong,
      starts it and the progress job. Only a preparing engine reports being prepared. */
  function PreparedListener(s: Snapshot, duration: int): (r: Snapshot)
    ensures !(s.player.Some? && s.player.value.phase == Preparing) ==> r == s
    ensures s.player.Some? && s.player.value.phase == Preparing ==>
      && r.player == Some(OnPrepared(s.player.value))
      && r.ui == s.ui.(totalDuration := duration)
      && r.progressUpdating == (s.progressUpdating || s.player.value.startsWhenPrepared)
    ensures Valid(s) ==> Valid(r)
  {
    if s.player.Some? && s.player.value.phase == Preparing then
      var e := s.player.value;
      s.(player := Some(OnPrepared(e)), ui := s.ui.(totalDuration := duration),
         progressUpdating := s.progressUpdating || e.startsWhenPrepared)
    else s
  }

  /** togglePlayPause. No engine: nothing. A playing engine: paused, progress job
      cancelled, isPlaying cleared. Otherwise the engine is started only when a duration
      is known. */
  function TogglePlayPause(s: Snapshot): (r: Snapshot)
    ensures s.player.None? ==> r == s
    ensures s.player.Some? && s.player.value.playing ==>
      r == s.(player := Some(Pause(s.player.value)), progressUpdating := false, ui := s.ui.(isPlaying := false))
    ensures s.player.Some? && !s.player.value.playing && s.ui.totalDuration > 0 ==>
      r.ui == s.ui.(isPlaying := true) && r.progressUpdating && r.sensor == s.sensor && r.player.Some?
    ensures Valid(s) && s.player.Some? && !s.player.value.playing && s.ui.totalDuration > 0 ==>
      r.player == Some(if s.player.value.phase == Prepared then s.player.value.(playing := true) else s.player.value)
    ensures s.player.Some? && !s.player.value.playing && s.ui.totalDuration <= 0 ==> r == s
    ensures Valid(s) ==> Valid(r)
  {
    match s.player
    case None => s
    case Some(e) =>
      if e.playing then
        s.(player := Some(Pause(e)), progressUpdating := false, ui := s.ui.(isPlaying := false))
      else if s.ui.totalDuration > 0 then
        s.(player := Some(Start(e)), progressUpdating := true, ui := s.ui.(isPlaying := true))
      else s
  }

  /** Pausing and resuming a song whose duration is known gives back the state it was
      in, with the progress job live. */
  lemma PauseResume(s: Snapshot)
    requires Valid(s) && s.player.Some? && s.player.value.playing && s.ui.totalDuration > 0
    ensures TogglePlayPause(TogglePlayPause(s)) == s.(progressUpdating := true)
  {
    var p := TogglePlayPause(s);
    assert p.player == Some(s.player.value.(playing := false));
    assert Valid(p);
  }

  /** Resuming and pausing again gives back a paused state, with no progress job. */
  lemma ResumePause(s: Snapshot)
    requires Valid(s) && s.player.Some? && !s.player.value.playing && !s.ui.isPlaying && s.ui.totalDuration > 0
    requires s.player.value.phase != Failed
    ensures TogglePlayPause(TogglePlayPause(s)) == s.(progressUpdating := false)
  {
    var p := TogglePlayPause(s);
    assert p.player == Some(s.player.value.(playing := true));
  }

  /** An engine that failed after its duration was known, and that no later skip
      replaced (the list was empty), still passes the duration test: togglePlayPause
      shows the song as playing and starts a progress job although nothing can play,
      and a second toggle finds the engine still not playing and does the same again. */
  lemma ToggleAfterFailure(s: Snapshot)
    requires s.player.Some? && s.player.value.phase == Failed && !s.player.value.playing && s.ui.totalDuration > 0
    ensures var r := TogglePlayPause(s);
      && r.ui.isPlaying && r.progressUpdating && r.player == s.player
      && TogglePlayPause(r) == r
  {
  }

  /** skipNext: nothing on an empty list; otherwise plays the following song, wrapping
      around, or the first song when the current one is not in the list. */
  function SkipNext(s: Snapshot, fault: Option<string>): (r: Snapshot)
    ensures s.ui.songList == [] ==> r == s
    ensures s.ui.songList != [] ==>
      r == PlaySong(s, s.ui.songList[NextIndex(|s.ui.songList|, IndexOf(s.ui.songList, s.ui.currentSong))], fault)
    ensures r.ui.currentSong == (if s.ui.songList == [] then s.ui.currentSong else NextSong(s.ui.songList, s.ui.currentSong))
    ensures r.ui.songList == s.ui.songList
    ensures Valid(s) ==> Valid(r)
  {
    if s.ui.songList == [] then s
    else PlaySong(s, NextSong(s.ui.songList, s.ui.currentSong).value, fault)
  }

  /** skipPrevious: nothing on an empty list; otherwise plays the preceding song,
      wrapping around, or the first song when the current one is not in the list. */
  function SkipPrevious(s: Snapshot, fault: Option<string>): (r: Snapshot)
    ensures s.ui.songList == [] ==> r == s
    ensures s.ui.songList != [] ==>
      r == PlaySong(s, s.ui.songList[PrevIndex(|s.ui.songList|, IndexOf(s.ui.songList, s.ui.currentSong))], fault)
    ensures r.ui.currentSong == (if s.ui.songList == [] then s.ui.currentSong else PrevSong(s.ui.songList, s.ui.currentSong))
    ensures r.ui.songList == s.ui.songList
    ensures Valid(s) ==> Valid(r)
  {
    if s.ui.songList == [] then s
    else PlaySong(s, PrevSong(s.ui.songList, s.ui.currentSong).value, fault)
  }

  /** k calls of skipNext in which the engine throws nothing. */
  function SkipNextTimes(s: Snapshot, k: nat): Snapshot
    decreases k
  {
    if k == 0 then s else SkipNext(SkipNextTimes(s, k - 1), None)
  }

  lemma {:induction false} SkipNextTimesFollowsSongs(s: Snapshot, k: nat)
    requires s.ui.songList != []
    ensures SkipNextTimes(s, k).ui.songList == s.ui.songList
    ensures k > 0 ==> SkipNextTimes(s, k).ui.currentSong == NextSongTimes(s.ui.songList, s.ui.currentSong, k)
    decreases k
  {
    if k > 0 {
      SkipNextTimesFollowsSongs(s, k - 1);
    }
  }

  /** Skipping forward once per song in a list without repeats comes back to the song
      playing before. */
  lemma SkipNextFullCycle(s: Snapshot, i: nat)
    requires NoDuplicates(s.ui.songList) && i < |s.ui.songList| && s.ui.currentSong == Some(s.ui.songList[i])
    ensures SkipNextTimes(s, |s.ui.songList|).ui.currentSong == s.ui.currentSong
  {
    SkipNextTimesFollowsSongs(s, |s.ui.songList|);
    FullCycleReturns(s.ui.songList, i);
  }

  /** skipPrevious then skipNext plays the song that was current, and so does the reverse. */
  lemma SkipPreviousThenNext(s: Snapshot, i: nat, f1: Option<string>, f2: Option<string>)
    requires NoDuplicates(s.ui.songList) && i < |s.ui.songList| && s.ui.currentSong == Some(s.ui.songList[i])
    ensures SkipNext(SkipPrevious(s, f1), f2).ui.currentSong == s.ui.currentSong
    ensures SkipPrevious(SkipNext(s, f1), f2).ui.currentSong == s.ui.currentSong
  {
    PrevNextInverse(s.ui.songList, i);
  }

  /** seekTo: the position shown is exactly the one asked for, with no clamping; the
      engine receives it cut to a 32-bit Int. */
  function SeekTo(s: Snapshot, position: int): (r: Snapshot)
    ensures r.ui == s.ui.(currentPosition := position)
    ensures s.player.None? ==> r.player.None?
    ensures s.player.Some? ==> r.player == Some(PlaybackEngine.SeekTo(s.player.value, position))
    ensures s.player.Some? && -TwoTo31 <= position < TwoTo31 ==> r.player.value.position == position
    ensures r.progressUpdating == s.progressUpdating && r.sensor == s.sensor
    ensures Valid(s) ==> Valid(r)
  {
    var player := if s.player.Some? then Some(PlaybackEngine.SeekTo(s.player.value, position)) else None;
    s.(player := player, ui := s.ui.(currentPosition := position))
  }

  /** The completion listener, `{ skipNext() }`, run by the engine held when playback
      ends or when that engine reports an error; an engine that calls no listener
      (see PlaybackEngine.Completes) changes nothing. */
  function CompletionListener(s: Snapshot, cause: CompletionCause, fault: Option<string>): (r: Snapshot)
    ensures !(s.player.Some? && Completes(s.player.value, cause)) ==> r == s
    ensures s.player.Some? && Completes(s.player.value, cause) ==>
      r == SkipNext(s.(player := Some(Complete(s.player.value, cause))), fault)
    ensures Valid(s) ==> Valid(r)
  {
    if s.player.Some? && Completes(s.player.value, cause) then
      SkipNext(s.(player := Some(Complete(s.player.value, cause))), fault)
    else s
  }

  /** A stream that cannot be opened (the server is down, say) still moves playback on:
      the error on the preparing engine runs skipNext, which plays the next song of the
      list and, given a source, prepares a fresh engine that can fail the same way. So
      while every stream fails, playback walks through the list one song per error. */
  lemma ErrorWhilePreparingSkips(s: Snapshot, fault: Option<string>)
    requires s.player.Some? && s.player.value.phase == Preparing && s.ui.songList != []
    ensures var r := CompletionListener(s, PlaybackError, fault);
      && r.ui.currentSong == NextSong(s.ui.songList, s.ui.currentSong)
      && r.ui.songList == s.ui.songList
      && (SourceOf(r.ui.currentSong.value).Some? && fault.None? ==>
            r.ui.isPlaying && r.player.Some? && Completes(r.player.value, PlaybackError))
  {
  }

  /** The state after k engine errors in a row, each on the engine the last one left. */
  function ErrorsTimes(s: Snapshot, k: nat): Snapshot
    decreases k
  {
    if k == 0 then s else CompletionListener(ErrorsTimes(s, k - 1), PlaybackError, None)
  }

  /** While every stream fails, k errors play the song k places on, wrapping around,
      and leave a preparing engine that can fail again. */
  lemma {:induction false} ErrorsWalkTheList(s: Snapshot, k: nat)
    requires s.player.Some? && s.player.value.phase == Preparing && s.ui.songList != []
    requires forall x :: x in s.ui.songList ==> SourceOf(x).Some?
    ensures var r := ErrorsTimes(s, k);
      && r.ui.songList == s.ui.songList
      && r.player.Some? && r.player.value.phase == Preparing
      && (k > 0 ==> r.ui.currentSong == NextSongTimes(s.ui.songList, s.ui.currentSong, k))
    decreases k
  {
    if k > 0 {
      var p := ErrorsTimes(s, k - 1);
      ErrorsWalkTheList(s, k - 1);
      assert p.ui.currentSong == NextSongTimes(s.ui.songList, s.ui.currentSong, k - 1);
      ErrorWhilePreparingSkips(p, None);
      var next := NextSong(p.ui.songList, p.ui.currentSong);
      assert next.value in s.ui.songList;
      assert ErrorsTimes(s, k) == CompletionListener(p, PlaybackError, None);
    }
  }

  // ---------------------------------------------------------------------------
  // Loading the songs

  /** loadAllSongs once both fetches are back: the merged list on network success, the
      local songs with an error on failure; then the first song is prepared when none is
      current. */
  function LoadAllSongs(s: Snapshot, network: Result<seq<Song>>, local: seq<Song>, fault: Option<string>): (r: Snapshot)
    ensures !r.ui.isLoading
    ensures network.Ok? ==> r.ui.songList == MergeSongs(network.value, local)
    ensures network.Failure? ==> r.ui.songList == local
    ensures s.ui.currentSong.Some? || r.ui.songList == [] ==>
      && r.player == s.player && r.ui.currentSong == s.ui.currentSong
      && r.ui.error == (if network.Ok? then None else Some(NetworkErrorMessage))
      && r == s.(ui := s.ui.(isLoading := false, songList := r.ui.songList,
                             error := if network.Ok? then None else Some(NetworkErrorMessage)))
    ensures s.ui.currentSong.None? && r.ui.songList != [] ==>
      && r.ui.currentSong == Some(r.ui.songList[0]) && !r.ui.isPlaying
      && r == PrepareSong(s.(ui := s.ui.(isLoading := false, songList := r.ui.songList,
                                         error := if network.Ok? then None else Some(NetworkErrorMessage))),
                          r.ui.songList[0], fault)
    ensures r.progressUpdating == s.progressUpdating && r.sensor == s.sensor
    ensures Valid(s) ==> Valid(r)
  {
    var list := if network.Ok? then MergeSongs(network.value, local) else local;
    var error := if network.Ok? then None else Some(NetworkErrorMessage);
    var loaded := s.(ui := s.ui.(isLoading := false, songList := list, error := error));
    if list != [] && loaded.ui.currentSong.None? then PrepareSong(loaded, list[0], fault) else loaded
  }

  /** onPermissionResult: records the answer and clears the error; a grant launches the
      load, whose first step shows the loading indicator. */
  function OnPermissionResult(s: Snapshot, isGranted: bool): (r: Snapshot)
    ensures r.ui.permissionGranted == isGranted && r.ui.error.None?
    ensures r.ui.isLoading == (isGranted || s.ui.isLoading)
    ensures r.player == s.player && r.ui.currentSong == s.ui.currentSong && r.ui.songList == s.ui.songList
    ensures r == s.(ui := s.ui.(permissionGranted := isGranted, error := None, isLoading := isGranted || s.ui.isLoading))
    ensures Valid(s) ==> Valid(r)
  {
    var ui := s.ui.(permissionGranted := isGranted, error := None);
    s.(ui := if isGranted then ui.(isLoading := true) else ui)
  }

  // ---------------------------------------------------------------------------
  // The proximity sensor

  /** enableProximitySensor: without a sensor only the error is set; otherwise the
      helper is started or stopped and the flag follows the request. */
  function EnableProximitySensor(s: Snapshot, enable: bool): (r: Snapshot)
    ensures !s.sensor.available ==>
      r == s.(ui := s.ui.(error := Some(SensorUnavailableMessage)))
    ensures s.sensor.available ==>
      && r.ui == s.ui.(isProximitySensorEnabled := enable)
      && r.sensor == (if enable then SensorHelper.Started(s.sensor) else SensorHelper.Stopped(s.sensor))
      && r.player == s.player
    ensures Valid(s) ==> Valid(r)
  {
    if !s.sensor.available then s.(ui := s.ui.(error := Some(SensorUnavailableMessage)))
    else
      var helper := if enable then SensorHelper.Started(s.sensor) else SensorHelper.Stopped(s.sensor);
      s.(sensor := helper, ui := s.ui.(isProximitySensorEnabled := enable))
  }

  /** The callbacks the helper was built with. */
  function Dispatch(s: Snapshot, c: Gestures.Callback, fault: Option<string>): (r: Snapshot)
    ensures c == Gestures.TogglePlayPause ==> r == TogglePlayPause(s)
    ensures c == Gestures.SkipNext ==> r == SkipNext(s, fault)
    ensures c == Gestures.SkipPrevious ==> r == SkipPrevious(s, fault)
    ensures Valid(s) ==> Valid(r)
  {
    match c
    case TogglePlayPause => TogglePlayPause(s)
    case SkipNext => SkipNext(s, fault)
    case SkipPrevious => SkipPrevious(s, fault)
  }

  function DispatchAll(s: Snapshot, cs: seq<Gestures.Callback>, fault: Option<string>): (r: Snapshot)
    ensures cs == [] ==> r == s
    ensures Valid(s) ==> Valid(r)
    decreases |cs|
  {
    if cs == [] then s else DispatchAll(Dispatch(s, cs[0], fault), cs[1..], fault)
  }

  /** What reaches the helper: a near/far reading, the end of a long-press delay, or the
      end of a wave delay. */
  datatype ProximityInput = Reading(isNear: bool, now: int) | LongPressTimer(startTime: int) | WaveTimer(gen: nat)

  /** The gesture event an input is; a reading carries `isPlaying` as isPlayingProvider
      reports it at that moment. */
  function EventOf(s: Snapshot, input: ProximityInput): (e: Gestures.Event)
    ensures input.Reading? ==> e == Gestures.Sample(input.isNear, input.now, s.ui.isPlaying)
  {
    match input
    case Reading(isNear, now) => Gestures.Sample(isNear, now, s.ui.isPlaying)
    case LongPressTimer(t) => Gestures.LongPressElapsed(t)
    case WaveTimer(g) => Gestures.WaveElapsed(g)
  }

  /** A proximity input handled by the helper, with the callbacks it invokes run on the
      view model. */
  function OnProximity(s: Snapshot, input: ProximityInput, fault: Option<string>): (r: Snapshot)
    ensures Valid(s) ==> Valid(r)
    ensures var o := SensorHelper.Exec(s.sensor, SensorHelper.Deliver(EventOf(s, input)));
      r == DispatchAll(s.(sensor := o.next), o.out, fault)
  {
    var o := SensorHelper.Exec(s.sensor, SensorHelper.Deliver(EventOf(s, input)));
    assert SensorHelper.HelperInv(s.sensor) ==> SensorHelper.HelperInv(o.next) by {
      if SensorHelper.HelperInv(s.sensor) {
        Gestures.RunKeepsInv(s.sensor.g, [EventOf(s, input)]);
        Gestures.RunCons(s.sensor.g, EventOf(s, input), []);
      }
    }
    DispatchAll(s.(sensor := o.next), o.out, fault)
  }

  function OnProximityAll(s: Snapshot, inputs: seq<ProximityInput>): Snapshot
    decreases |inputs|
  {
    if inputs == [] then s else OnProximityAll(OnProximity(s, inputs[0], None), inputs[1..])
  }

  lemma OnProximityAllCons(s: Snapshot, i: ProximityInput, rest: seq<ProximityInput>)
    ensures OnProximityAll(s, [i] + rest) == OnProximityAll(OnProximity(s, i, None), rest)
  {
    assert ([i] + rest)[1..] == rest;
  }

  /** Two quick waves over [a, b, c] while a plays: once the wave delay of the second
      wave ends, skipPrevious wraps around to c, shown as playing from 0 while its engine
      prepares; when the engine reports prepared, c plays with the reported duration. */
  lemma TwoWavesFromFirstPlayLast(s: Snapshot, a: Song, b: Song, c: Song, t0: int, t1: int, t2: int, t3: int, duration: int)
    requires Valid(s) && s.ui.songList == [a, b, c] && s.ui.currentSong == Some(a) && a != b && a != c
    requires s.sensor.registered && s.sensor.g.sensorState.Far? && s.sensor.g.waveCount == 0
    requires SourceOf(c).Some?
    ensures var gen := s.sensor.g.waveGen + 2;
      var r := OnProximityAll(s, [Reading(true, t0), Reading(false, t1), Reading(true, t2), Reading(false, t3), WaveTimer(gen)]);
      && r.ui.currentSong == Some(c) && r.ui.currentPosition == 0 && r.ui.totalDuration == 0
      && r.ui.isPlaying && r.player == Some(NewPreparing(SourceOf(c).value, true))
      && r.sensor.g.waveCount == 0 && !r.sensor.g.waveArmed
      && var p := PreparedListener(r, duration);
         p.player.Some? && p.player.value.playing && p.ui.totalDuration == duration && p.ui.currentSong == Some(c)
  {
    var gen := s.sensor.g.waveGen + 2;
    var s1 := OnProximity(s, Reading(true, t0), None);
    var s2 := OnProximity(s1, Reading(false, t1), None);
    var s3 := OnProximity(s2, Reading(true, t2), None);
    var s4 := OnProximity(s3, Reading(false, t3), None);
    assert s1.ui == s.ui && s1.player == s.player && s1.sensor.registered && s1.sensor.g.sensorState.Near?;
    assert s1.sensor.g.waveCount == 0 && s1.sensor.g.waveGen == s.sensor.g.waveGen;
    assert s2.ui == s.ui && s2.player == s.player && s2.sensor.registered && s2.sensor.g.sensorState.Far?;
    assert s2.sensor.g.waveCount == 1 && s2.sensor.g.waveGen == s.sensor.g.waveGen + 1;
    assert s3.ui == s.ui && s3.player == s.player && s3.sensor.registered && s3.sensor.g.sensorState.Near?;
    assert s3.sensor.g.waveCount == 1 && s3.sensor.g.waveGen == s.sensor.g.waveGen + 1;
    assert s4.ui == s.ui && s4.player == s.player && s4.sensor.g.waveArmed;
    assert s4.sensor.g.waveCount == 2 && s4.sensor.g.waveGen == gen;
    var o := SensorHelper.Exec(s4.sensor, SensorHelper.Deliver(Gestures.WaveElapsed(gen)));
    assert o.out == [Gestures.SkipPrevious];
    assert IndexOf([a, b, c], Some(a)) == 0;
    var s5 := OnProximity(s4, WaveTimer(gen), None);
    assert s5 == SkipPrevious(s4.(sensor := o.next), None);
    OnProximityAllCons(s4, WaveTimer(gen), []);
    OnProximityAllCons(s3, Reading(false, t3), [WaveTimer(gen)]);
    OnProximityAllCons(s2, Reading(true, t2), [Reading(false, t3), WaveTimer(gen)]);
    OnProximityAllCons(s1, Reading(false, t1), [Reading(true, t2), Reading(false, t3), WaveTimer(gen)]);
    OnProximityAllCons(s, Reading(true, t0), [Reading(false, t1), Reading(true, t2), Reading(false, t3), WaveTimer(gen)]);
    assert [Reading(true, t0), Reading(false, t1), Reading(true, t2), Reading(false, t3), WaveTimer(gen)]
      == [Reading(true, t0)] + [Reading(false, t1), Reading(true, t2), Reading(false, t3), WaveTimer(gen)];
    assert [Reading(false, t1), Reading(true, t2), Reading(false, t3), WaveTimer(gen)]
      == [Reading(false, t1)] + [Reading(true, t2), Reading(false, t3), WaveTimer(gen)];
    assert [Reading(true, t2), Reading(false, t3), WaveTimer(gen)] == [Reading(true, t2)] + [Reading(false, t3), WaveTimer(gen)];
    assert [Reading(false, t3), WaveTimer(gen)] == [Reading(false, t3)] + [WaveTimer(gen)];
    assert [WaveTimer(gen)] == [WaveTimer(gen)] + [];
  }

  // ---------------------------------------------------------------------------
  // Adding the selected song to a playlist

  /** onAddSongClicked once the playlists fetch is back: the song is remembered and the
      error cleared; the playlists are offered in the dialog, or an error is shown. */
  function OnAddSongClicked(s: Snapshot, song: Song, playlists: Result<seq<Playlist>>): (r: Snapshot)
    ensures r.ui.songToAddToPlaylist == Some(song)
    ensures playlists.Ok? ==> r.ui.error.None? && r.ui.showAddToPlaylistDialog && r.ui.availablePlaylists == playlists.value
    ensures playlists.Failure? ==> r.ui.error == Some(PlaylistsErrorMessage) && r.ui.showAddToPlaylistDialog == s.ui.showAddToPlaylistDialog
    ensures r.player == s.player && r.ui.currentSong == s.ui.currentSong && r.ui.isPlaying == s.ui.isPlaying
    ensures playlists.Ok? ==>
      r == s.(ui := s.ui.(songToAddToPlaylist := Some(song), error := None,
                          availablePlaylists := playlists.value, showAddToPlaylistDialog := true))
    ensures playlists.Failure? ==>
      r == s.(ui := s.ui.(songToAddToPlaylist := Some(song), error := Some(PlaylistsErrorMessage)))
    ensures Valid(s) ==> Valid(r)
  {
    var ui := s.ui.(songToAddToPlaylist := Some(song), error := None);
    match playlists
    case Ok(ps) => s.(ui := ui.(availablePlaylists := ps, showAddToPlaylistDialog := true))
    case Failure(_) => s.(ui := ui.(error := Some(PlaylistsErrorMessage)))
  }

  function OnDismissAddToPlaylistDialog(s: Snapshot): (r: Snapshot)
    ensures r.ui == s.ui.(showAddToPlaylistDialog := false, songToAddToPlaylist := None, availablePlaylists := [])
    ensures r.player == s.player && r.progressUpdating == s.progressUpdating && r.sensor == s.sensor
    ensures Valid(s) ==> Valid(r)
  {
    s.(ui := s.ui.(showAddToPlaylistDialog := false, songToAddToPlaylist := None, availablePlaylists := []))
  }

  /** A song that only exists on the device: it must be uploaded before its id can go in a playlist. */
  predicate IsLocalSong(song: Song)
  {
    song.contentUri.Some? && song.networkUrl.None?
  }

  /** The state after addSongToPlaylist, and the playlist it sent to the server, if any. */
  datatype AddResult = AddResult(next: Snapshot, sent: Option<Playlist>)

  /** `sent` is `playlist` with one id appended that was not in it. */
  predicate SentWithNewId(playlist: Playlist, sent: Playlist)
  {
    && sent.id == playlist.id && sent.name == playlist.name
    && |sent.songIds| == |playlist.songIds| + 1
    && sent.songIds[..|playlist.songIds|] == playlist.songIds
    && sent.songIds[|playlist.songIds|] !in playlist.songIds
  }

  /** The step after the id to add is known: an id already in the playlist is reported
      and nothing is sent; otherwise the playlist with the id appended is sent, and a
      failed update is reported. The dialog is dismissed either way. */
  function AddId(s: Snapshot, playlist: Playlist, id: int, updateFailure: Option<string>): (r: AddResult)
    ensures id in playlist.songIds ==>
      r.sent.None? && r.next == OnDismissAddToPlaylistDialog(s.(ui := s.ui.(error := Some("La canción ya está en esta playlist."))))
    ensures id !in playlist.songIds ==>
      && r.sent == Some(playlist.(songIds := playlist.songIds + [id]))
      && r.next.ui.error == (if updateFailure.Some? then Some(UpdateErrorPrefix + updateFailure.value) else s.ui.error)
      && r.next.ui.songToAddToPlaylist.None? && !r.next.ui.showAddToPlaylistDialog
      && r.next == OnDismissAddToPlaylistDialog(s.(ui := s.ui.(error := r.next.ui.error)))
    ensures r.sent.Some? ==> SentWithNewId(playlist, r.sent.value)
    ensures r.next.player == s.player && r.next.ui.currentSong == s.ui.currentSong
    ensures Valid(s) ==> Valid(r.next)
  {
    match AddSongId(playlist, id)
    case Failure(m) => AddResult(OnDismissAddToPlaylistDialog(s.(ui := s.ui.(error := Some(m)))), None)
    case Ok(p) =>
      var reported := if updateFailure.Some? then s.(ui := s.ui.(error := Some(UpdateErrorPrefix + updateFailure.value))) else s;
      AddResult(OnDismissAddToPlaylistDialog(reported), Some(p))
  }

  /** The local-song branch of addSongToPlaylist: "uploading" is shown, the song is
      uploaded (`upload` is how that went) and the server's id is added; a failed upload
      is reported and the dialog dismissed. */
  function UploadAndAdd(s: Snapshot, song: Song, playlist: Playlist, upload: Repository.UploadOutcome, updateFailure: Option<string>): (r: AddResult)
    requires IsLocalSong(song)
    ensures upload.Accepted? ==>
      r == AddId(s.(ui := s.ui.(error := Some(UploadingMessage))), playlist, upload.body.id, updateFailure)
    ensures !upload.Accepted? ==>
      && r.sent.None?
      && r.next.ui.error == Some(UploadErrorPrefix + Repository.UploadSong(song, upload).message)
      && r.next.ui.songToAddToPlaylist.None? && !r.next.ui.showAddToPlaylistDialog
      && r.next == OnDismissAddToPlaylistDialog(s.(ui := s.ui.(error := r.next.ui.error)))
    ensures r.sent.Some? ==> SentWithNewId(playlist, r.sent.value)
    ensures r.next.player == s.player && r.next.ui.currentSong == s.ui.currentSong
    ensures Valid(s) ==> Valid(r.next)
  {
    var uploading := s.(ui := s.ui.(error := Some(UploadingMessage)));
    match Repository.UploadSong(song, upload)
    case Failure(m) =>
      AddResult(OnDismissAddToPlaylistDialog(uploading.(ui := uploading.ui.(error := Some(UploadErrorPrefix + m)))), None)
    case Ok(uploaded) => AddId(uploading, playlist, uploaded.id, updateFailure)
  }

  /** addSongToPlaylist: nothing without a selected song; a local song is uploaded first
      and the server's id is used; any other song's own id is used. `updateFailure` is
      the message of a failed playlist update, None when it succeeded. */
  function AddSongToPlaylist(s: Snapshot, playlist: Playlist, upload: Repository.UploadOutcome, updateFailure: Option<string>): (r: AddResult)
    ensures s.ui.songToAddToPlaylist.None? ==> r == AddResult(s, None)
    ensures r.sent.Some? ==> s.ui.songToAddToPlaylist.Some? && SentWithNewId(playlist, r.sent.value)
    ensures s.ui.songToAddToPlaylist.Some? && !IsLocalSong(s.ui.songToAddToPlaylist.value) ==>
      r == AddId(s, playlist, s.ui.songToAddToPlaylist.value.id, updateFailure)
    ensures s.ui.songToAddToPlaylist.Some? && IsLocalSong(s.ui.songToAddToPlaylist.value) ==>
      r == UploadAndAdd(s, s.ui.songToAddToPlaylist.value, playlist, upload, updateFailure)
    ensures r.next.player == s.player && r.next.ui.currentSong == s.ui.currentSong
    ensures Valid(s) ==> Valid(r.next)
  {
    match s.ui.songToAddToPlaylist
    case None => AddResult(s, None)
    case Some(song) =>
      if IsLocalSong(song) then UploadAndAdd(s, song, playlist, upload, updateFailure)
      else AddId(s, playlist, song.id, updateFailure)
  }
}

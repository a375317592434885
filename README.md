# Proximity-gesture music player: a Dafny model

This project models the core of an Android music player. The player is controlled
by waving a hand over the phone's proximity sensor:

- one quick wave skips to the next song;
- two or more quick waves skip to the previous song;
- a hold of at least 500 ms pauses the music, and resumes it on release.

The model covers:

- **The gesture state machine** (`Gestures`). It appears twice in the source: in
  ProximitySensorHelper, and inline in the earlier player view model. Timers are events:
  - the 500 ms long-press coroutine is `LongPressElapsed(startTime)`, keyed by its
    episode;
  - the 700 ms wave job is `WaveElapsed(gen)`. A job replaced by a later wave keeps an
    older generation and does nothing.
- **ProximitySensorHelper** (`SensorHelper`). Start, stop and delivery of readings, as
  pure functions and as a class.
- **The playback sequencer of the newer PlayerViewModel**. `PlayerState` holds the view
  model's state and its transitions. `PlayerViewModel.PlayerViewModel` is the same as an
  object whose methods are proved to perform those transitions.
  - The media player is an abstract engine (`PlaybackEngine`). Its prepared
    notification, and its call of the completion listener at the end of playback or
    after an error, are separate events.
  - `SongLists` holds the index arithmetic, the `distinctBy` merge and the id append.
- **The earlier player view model**, in the same two layers (`LegacyPlayer`,
  `LegacyViewModel`). It differs from the newer one in several ways:
  - it keeps the gesture fields inline;
  - it does not reset the duration and has no resume guard;
  - disabling the sensor does not cancel a pending wave job;
  - its skipPrevious can throw.
- **The debounce listener of PlayerScreen** (`ScreenGesture`).
- **formatDuration** (`Formatting`).
- **The load logic of PlaylistDetailViewModel** (`PlaylistDetail`).
- **The MusicRepository mapping and upload outcomes** (`Repository`).

Inputs from outside the model are parameters:

- what an HTTP call returned, as a `Result`;
- the message of an exception thrown while setting up the media player, as `fault`;
- the sensor reading;
- the clock.

Module map:

| file | module |
|---|---|
| base.dfy | Base (Option, Result) |
| models.dfy | Models (Song, NetworkSong, Playlist) |
| arithmetic.dfy | Arithmetic (division facts for the formatter) |
| formatting.dfy | Formatting |
| repository.dfy | Repository |
| engine.dfy | PlaybackEngine |
| gestures.dfy | Gestures |
| sensor_helper.dfy | SensorHelper |
| song_lists.dfy | SongLists |
| player_state.dfy, player_view_model.dfy | PlayerState, PlayerViewModel |
| legacy_player.dfy, legacy_view_model.dfy | LegacyPlayer, LegacyViewModel |
| screen_gesture.dfy | ScreenGesture |
| playlist_detail.dfy | PlaylistDetail |

In these places the model follows the code:

- seekTo does not clamp the position.
- There is no playAt operation that rejects an invalid index. Playing a song is
  playSong(song), and the skips pick an index that is always in range, except in the
  earlier skipPrevious (see Findings).
- The newer playSong's catch branch sets isPlaying to false, but its no-source branch
  leaves it true.
- Song.kt declares neither an optional contentUri nor a networkUrl, yet every view model
  and the repository use both as optional. The model's `Song` has both as options.

## Model

| member | source | states |
|---|---|---|
| Formatting.Quot | app/src/main/java/com/example/integradorasensorproximidad/ui/player/PlayerComponents.kt:124-125 | Java's truncating long division: for ms >= 0 the quotient q satisfies q*b <= ms < q*b + b; for negative ms it rounds toward zero |
| Formatting.Minutes | app/src/main/java/com/example/integradorasensorproximidad/ui/player/PlayerComponents.kt:124 | toMinutes: the whole minutes of ms, truncated toward zero, so for ms >= 0 they bracket ms between m and m + 1 minutes |
| Formatting.WholeSeconds | app/src/main/java/com/example/integradorasensorproximidad/ui/player/PlayerComponents.kt:125 | toSeconds: the whole seconds of ms, truncated toward zero, with the same bracketing by seconds |
| Formatting.QuotNested | app/src/main/java/com/example/integradorasensorproximidad/ui/player/PlayerComponents.kt:124-125 | converting ms to minutes equals converting to whole seconds and then to minutes |
| Formatting.Seconds | app/src/main/java/com/example/integradorasensorproximidad/ui/player/PlayerComponents.kt:125 | seconds = whole seconds minus 60 times the minutes; minutes*60 + seconds equals the whole seconds, and 0 <= seconds < 60 for ms >= 0 |
| Formatting.Pad2 | app/src/main/java/com/example/integradorasensorproximidad/ui/player/PlayerComponents.kt:126 | `%02d`: at least two digits whose value is n; exactly two when 0 <= n < 100; a minus sign before the digits of -n when n < 0 |
| Formatting.FormatDuration | app/src/main/java/com/example/integradorasensorproximidad/ui/player/PlayerComponents.kt:123-127 | formatDuration: at least five characters, with the colon between a minutes part and a seconds part of at least two characters each |
| Formatting.FormatDurationShape | app/src/main/java/com/example/integradorasensorproximidad/ui/player/PlayerComponents.kt:123-127 | for 0 <= ms < 6,000,000 the text has length 5 and ':' at index 2, its digits read back as minutes and seconds, and seconds < 60 |
| Formatting.FormatDurationNonNegative | app/src/main/java/com/example/integradorasensorproximidad/ui/player/PlayerComponents.kt:123-127 | for any ms >= 0 the text is two or more minute digits, ':' and two second digits, which read back as the minutes and the seconds |
| Formatting.SameSecondSameText | app/src/main/java/com/example/integradorasensorproximidad/ui/player/PlayerComponents.kt:124-125 | two durations with the same whole number of seconds format identically |
| Formatting.SmallNegativeIsZero | app/src/main/java/com/example/integradorasensorproximidad/ui/player/PlayerComponents.kt:124-126 | durations between -999 and 0 ms format as "00:00", because the division truncates |
| Formatting.IntToString | app/src/main/java/com/example/integradorasensorproximidad/ui/playlists/PlaylistDetailViewModel.kt:83 | Kotlin's decimal rendering of an Int in a string template: the digits of i, with a leading '-' for negatives |
| PlaylistDetail.NotFoundMessage | app/src/main/java/com/example/integradorasensorproximidad/ui/playlists/PlaylistDetailViewModel.kt:83 | "No se encontró la playlist con ID " + id + ".": the id reads back from the text between the prefix and the full stop |
| Repository.StreamUrlRoundTrip | app/src/main/java/com/example/integradorasensorproximidad/data/repository/MusicRepository.kt:40 | the file path can be recovered from the stream URL baseUrl + "api/audio/" + filePath |
| Repository.StreamUrl | app/src/main/java/com/example/integradorasensorproximidad/data/repository/MusicRepository.kt:40 | the stream URL is baseUrl + "api/audio/" followed by exactly the file path |
| Repository.ToSong | app/src/main/java/com/example/integradorasensorproximidad/data/repository/MusicRepository.kt:34-41 | the mapping copies id, title, artist and duration; contentUri is null; the URL names the record's file; the record can be recovered from the song |
| Repository.MapNetworkSongs | app/src/main/java/com/example/integradorasensorproximidad/data/repository/MusicRepository.kt:33-42 | one song per record, in the same order |
| Repository.MapNetworkSongsRoundTrip | app/src/main/java/com/example/integradorasensorproximidad/data/repository/MusicRepository.kt:33-42 | the mapped list determines the API list exactly (nothing dropped, added or reordered) |
| Repository.GetNetworkSongs | app/src/main/java/com/example/integradorasensorproximidad/data/repository/MusicRepository.kt:29-47 | a failure is passed on with its message; success is the mapped list, of the same length, from which the API list can be recovered, and every song is a network song |
| Repository.UploadSong | app/src/main/java/com/example/integradorasensorproximidad/data/repository/MusicRepository.kt:80-115 | no contentUri: failure "La canción a subir debe ser un archivo local." before anything else; Ok exactly when the server accepted, and then the song built from the reply; the unreadable, rejected ("Error al subir la canción: " + message) and exception outcomes fail with their messages |
| PlaybackEngine.SourceOf | app/src/main/java/com/example/integradorasensorproximidad/ui/viewmodel/PlayerViewModel.kt:141-147 | the network URL when there is one, else the content URI; none exactly when the song has neither |
| PlaybackEngine.NewPreparing | app/src/main/java/com/example/integradorasensorproximidad/ui/viewmodel/PlayerViewModel.kt:139-156 | a new engine given a source and then prepareAsync: preparing, not playing, with that source |
| PlaybackEngine.NewBroken | app/src/main/java/com/example/integradorasensorproximidad/ui/viewmodel/PlayerViewModel.kt:159-161 | a new engine whose setDataSource or prepareAsync threw: idle and never playing |
| PlaybackEngine.Release | app/src/main/java/com/example/integradorasensorproximidad/ui/viewmodel/PlayerViewModel.kt:134 | release(): the engine is released and silent, its source kept |
| PlaybackEngine.Pause | app/src/main/java/com/example/integradorasensorproximidad/ui/viewmodel/PlayerViewModel.kt:169 | pause(): the engine stops playing and keeps its phase and source |
| PlaybackEngine.Start | app/src/main/java/com/example/integradorasensorproximidad/ui/player/PlayerViewModel.kt:156 | start() plays a prepared engine and leaves any other unchanged; an engine in which only a prepared engine plays keeps that |
| PlaybackEngine.OnPrepared | app/src/main/java/com/example/integradorasensorproximidad/ui/viewmodel/PlayerViewModel.kt:150-154 | a preparing engine becomes prepared and plays when its listener starts it |
| PlaybackEngine.OnCompleted | app/src/main/java/com/example/integradorasensorproximidad/ui/viewmodel/PlayerViewModel.kt:158 | end of playback: the engine stops and stays prepared |
| PlaybackEngine.Complete | app/src/main/java/com/example/integradorasensorproximidad/ui/viewmodel/PlayerViewModel.kt:158 | the engine as the completion listener finds it: stopped at the end of playback, or in the error state after an error (no error listener is set, so MediaPlayer calls onCompletion after the error) |
| PlaybackEngine.ToInt32 | app/src/main/java/com/example/integradorasensorproximidad/ui/viewmodel/PlayerViewModel.kt:208 | Long.toInt(): a value in the Int range, congruent to the input modulo 2^32, equal to it when it fits |
| PlaybackEngine.SeekTo | app/src/main/java/com/example/integradorasensorproximidad/ui/viewmodel/PlayerViewModel.kt:208 | the engine's position becomes position.toInt(); phase and playing are kept |
| Gestures.OnSensorChanged | app/src/main/java/com/example/integradorasensorproximidad/util/ProximitySensorHelper.kt:55-100 | a Far->Near edge opens Near(now, false, isPlaying) and emits nothing; a repeated reading changes nothing; release after a long press toggles iff wasPlaying and keeps the count; a short release adds one wave and replaces the wave job; at most one callback, always the toggle; the invariant is kept |
| Gestures.OnLongPressElapsed | app/src/main/java/com/example/integradorasensorproximidad/util/ProximitySensorHelper.kt:65-75 | acts only if the state is still Near with the same startTime: one toggle iff wasPlaying, and longPressTriggered becomes true; the wave fields are untouched |
| Gestures.OnWaveElapsed | app/src/main/java/com/example/integradorasensorproximidad/util/ProximitySensorHelper.kt:89-97 | only the live (latest, uncancelled) job acts: SkipNext at count 1, SkipPrevious at 2 or more, then the count is 0 and no job is pending |
| Gestures.Reset | app/src/main/java/com/example/integradorasensorproximidad/util/ProximitySensorHelper.kt:50-52 | stopListening's reset: Far, count 0, no pending wave job |
| Gestures.RunAppend | app/src/main/java/com/example/integradorasensorproximidad/util/ProximitySensorHelper.kt:55-100 | running two event sequences one after the other is running their concatenation |
| Gestures.RunKeepsInv | app/src/main/java/com/example/integradorasensorproximidad/util/ProximitySensorHelper.kt:55-100 | every run keeps the invariant: a wave job is pending exactly when waves have been counted |
| Gestures.LiveWaveJobAlwaysSkips | app/src/main/java/com/example/integradorasensorproximidad/util/ProximitySensorHelper.kt:89-97 | in a reachable state the pending wave job always invokes exactly one skip (its count-0 branch is never taken) |
| Gestures.HoldTogglesTwiceIffPlaying | app/src/main/java/com/example/integradorasensorproximidad/util/ProximitySensorHelper.kt:65-84 | a hold that began while playing toggles twice (pause at 500 ms, resume on release), otherwise not at all; it is not a wave and the state returns to where it started |
| Gestures.ShortEpisodeIsWave | app/src/main/java/com/example/integradorasensorproximidad/util/ProximitySensorHelper.kt:61-98 | an episode shorter than 500 ms invokes no callback and counts exactly one wave |
| Gestures.StaleLongPressIgnored | app/src/main/java/com/example/integradorasensorproximidad/util/ProximitySensorHelper.kt:68 | the long-press timer of an earlier episode does nothing in a later one |
| Gestures.WavesAccumulate | app/src/main/java/com/example/integradorasensorproximidad/util/ProximitySensorHelper.kt:86-98 | k short waves add k to the count, invoke nothing and leave only the last wave job live |
| Gestures.WaveBurst | app/src/main/java/com/example/integradorasensorproximidad/util/ProximitySensorHelper.kt:86-97 | after one wave the live job skips to the next song, after two or more to the previous one; the superseded jobs do nothing |
| SensorHelper.Started | app/src/main/java/com/example/integradorasensorproximidad/util/ProximitySensorHelper.kt:42-45 | startListening registers and keeps the gesture state; without a sensor it does nothing |
| SensorHelper.Stopped | app/src/main/java/com/example/integradorasensorproximidad/util/ProximitySensorHelper.kt:47-53 | stopListening unregisters, cancels the wave job and resets to Far with count 0; without a sensor it does nothing |
| SensorHelper.Exec | app/src/main/java/com/example/integradorasensorproximidad/util/ProximitySensorHelper.kt:42-100 | readings reach the listener only while it is registered; availability never changes |
| SensorHelper.QuietUntilStart | app/src/main/java/com/example/integradorasensorproximidad/util/ProximitySensorHelper.kt:47-53 | a stopped helper invokes no callback, whatever readings and timers follow, until startListening |
| SensorHelper.NothingAfterStop | app/src/main/java/com/example/integradorasensorproximidad/util/ProximitySensorHelper.kt:47-53 | after stopListening no callback is invoked until listening starts again, even from timers already pending |
| SensorHelper.ProximitySensorHelper.StartListening | app/src/main/java/com/example/integradorasensorproximidad/util/ProximitySensorHelper.kt:42-45 | the object's new state is Started of the old one |
| SensorHelper.ProximitySensorHelper.StopListening | app/src/main/java/com/example/integradorasensorproximidad/util/ProximitySensorHelper.kt:47-53 | the object's new state is Stopped of the old one |
| SensorHelper.ProximitySensorHelper.OnSensorChanged | app/src/main/java/com/example/integradorasensorproximidad/util/ProximitySensorHelper.kt:55-100 | the object takes the gesture transition of the reading and appends its callbacks to the log |
| SensorHelper.ProximitySensorHelper.OnLongPressElapsed | app/src/main/java/com/example/integradorasensorproximidad/util/ProximitySensorHelper.kt:65-75 | the object takes the long-press transition and logs its callbacks |
| SensorHelper.ProximitySensorHelper.OnWaveElapsed | app/src/main/java/com/example/integradorasensorproximidad/util/ProximitySensorHelper.kt:89-97 | the object takes the wave-job transition and logs its callbacks |
| SongLists.IndexOf | app/src/main/java/com/example/integradorasensorproximidad/ui/viewmodel/PlayerViewModel.kt:186 | List.indexOf: -1 exactly when the song is null or absent, otherwise the first position holding it |
| SongLists.NextIndex | app/src/main/java/com/example/integradorasensorproximidad/ui/viewmodel/PlayerViewModel.kt:187-191 | the index skipNext plays: 0 for a missing song, otherwise (i + 1) mod n |
| SongLists.PrevIndex | app/src/main/java/com/example/integradorasensorproximidad/ui/viewmodel/PlayerViewModel.kt:199-203 | the index skipPrevious plays: 0 for a missing song, otherwise (i - 1 + n) mod n |
| SongLists.NextSong | app/src/main/java/com/example/integradorasensorproximidad/ui/viewmodel/PlayerViewModel.kt:183-193 | the song skipNext plays: none only for an empty list, always in the list, the first one when the current song is missing |
| SongLists.PrevSong | app/src/main/java/com/example/integradorasensorproximidad/ui/viewmodel/PlayerViewModel.kt:195-205 | the song skipPrevious plays, on the same terms |
| SongLists.NextIndexTimesWraps | app/src/main/java/com/example/integradorasensorproximidad/ui/viewmodel/PlayerViewModel.kt:191 | k steps of skipNext from index i land on (i + k) mod n |
| SongLists.NextSongTimesFollowsIndex | app/src/main/java/com/example/integradorasensorproximidad/ui/viewmodel/PlayerViewModel.kt:191 | in a list without repeats, k skipNext calls from the song at i play the song at the k-th next index |
| SongLists.NextSongTimesWraps | app/src/main/java/com/example/integradorasensorproximidad/ui/viewmodel/PlayerViewModel.kt:191 | in a list without repeats, k skipNext calls from the song at i play the song at (i + k) mod n |
| SongLists.FullCycleReturns | app/src/main/java/com/example/integradorasensorproximidad/ui/viewmodel/PlayerViewModel.kt:191 | in a list without repeats, n skipNext calls return to the song they started from |
| SongLists.PrevNextInverse | app/src/main/java/com/example/integradorasensorproximidad/ui/viewmodel/PlayerViewModel.kt:191-203 | in a list without repeats, skipPrevious then skipNext, and skipNext then skipPrevious, return to the song of index i |
| SongLists.LegacyNextIndex | app/src/main/java/com/example/integradorasensorproximidad/ui/player/PlayerViewModel.kt:166-167 | the older skipNext index: n-1 goes to 0, anything else up by one, which is the newer NextIndex |
| SongLists.LegacyPrevIndex | app/src/main/java/com/example/integradorasensorproximidad/ui/player/PlayerViewModel.kt:174-175 | the older skipPrevious index: equals PrevIndex for a song in the list and is -2 for a missing one |
| SongLists.LegacyPrevIndexOutOfRange | app/src/main/java/com/example/integradorasensorproximidad/ui/player/PlayerViewModel.kt:171-177 | for a non-empty list and a missing current song the older index is outside the list |
| SongLists.KeepFirstSpec | app/src/main/java/com/example/integradorasensorproximidad/ui/viewmodel/PlayerViewModel.kt:74 | distinctBy: the result comes from the input, in order, has no repeated (title, artist), and keeps every first occurrence of a new pair; it is exactly those first occurrences, in the order of the input (Firsts, defined by position) |
| SongLists.MergeSongs | app/src/main/java/com/example/integradorasensorproximidad/ui/viewmodel/PlayerViewModel.kt:74 | (network + local).distinctBy(title to artist): no two entries share a (title, artist) and no entry repeats; an order-preserving subsequence of network + local; every first occurrence of a pair is kept; the result is exactly the first occurrence of every pair, in the order of network + local |
| SongLists.KeepFirstAppend | app/src/main/java/com/example/integradorasensorproximidad/ui/viewmodel/PlayerViewModel.kt:74 | deduplicating a + b when a is already distinct keeps all of a and then deduplicates b against a's pairs |
| SongLists.MergeKeepsNetworkFirst | app/src/main/java/com/example/integradorasensorproximidad/ui/viewmodel/PlayerViewModel.kt:74 | when the network songs are distinct, the merged list is all of them followed by the local songs whose pair is new |
| SongLists.AddSongId | app/src/main/java/com/example/integradorasensorproximidad/ui/viewmodel/PlayerViewModel.kt:282-289 | an id already in songIds is refused with "La canción ya está en esta playlist."; otherwise songIds + id: one longer, old ids an unchanged prefix, the id last, repeats still absent |
| PlayerState.InitialValid | app/src/main/java/com/example/integradorasensorproximidad/ui/viewmodel/PlayerViewModel.kt:46-56 | the freshly built view model satisfies the view-model invariant |
| PlayerState.Initial | app/src/main/java/com/example/integradorasensorproximidad/ui/viewmodel/PlayerViewModel.kt:22-35 | the PlayerUiState defaults: no songs, no current song, not playing, position and duration 0, no permission, not loading, no error, no dialog, no playlists, sensor off; no engine, no progress job, helper unregistered with the initial gesture state |
| PlayerState.PlaySong | app/src/main/java/com/example/integradorasensorproximidad/ui/viewmodel/PlayerViewModel.kt:130-164 | stops progress, releases the engine, shows the song at position 0 with duration 0; no source: the error, isPlaying still true and the released engine in place; an exception: the error and isPlaying false; otherwise a preparing engine that starts when ready; the invariant is kept |
| PlayerState.PrepareSong | app/src/main/java/com/example/integradorasensorproximidad/ui/viewmodel/PlayerViewModel.kt:102-127 | the song shown as not playing at position 0 with duration 0; the same three outcomes with the prepare messages; the engine only records the duration when ready |
| PlayerState.PreparedListener | app/src/main/java/com/example/integradorasensorproximidad/ui/viewmodel/PlayerViewModel.kt:150-154 | a preparing engine becomes prepared, the duration is recorded, and playSong's engine starts with progress updates; nothing happens otherwise |
| PlayerState.TogglePlayPause | app/src/main/java/com/example/integradorasensorproximidad/ui/viewmodel/PlayerViewModel.kt:166-181 | no player: no-op; playing: paused, progress stops, isPlaying false; not playing: resumes only when totalDuration > 0 (then the engine plays), otherwise nothing changes |
| PlayerState.PauseResume | app/src/main/java/com/example/integradorasensorproximidad/ui/viewmodel/PlayerViewModel.kt:166-181 | pausing then resuming a song with known duration restores the state, with progress running |
| PlayerState.ResumePause | app/src/main/java/com/example/integradorasensorproximidad/ui/viewmodel/PlayerViewModel.kt:166-181 | resuming then pausing a paused song whose engine has not failed restores the state, with no progress job |
| PlayerState.ToggleAfterFailure | app/src/main/java/com/example/integradorasensorproximidad/ui/viewmodel/PlayerViewModel.kt:166-181 | an engine that failed after its duration was known passes the duration test: toggling shows the song as playing and starts a progress job although nothing plays, and toggling again changes nothing |
| PlayerState.SkipNext | app/src/main/java/com/example/integradorasensorproximidad/ui/viewmodel/PlayerViewModel.kt:183-193 | empty list: no-op; otherwise plays the song at NextIndex of the current index; the list is unchanged |
| PlayerState.SkipPrevious | app/src/main/java/com/example/integradorasensorproximidad/ui/viewmodel/PlayerViewModel.kt:195-205 | empty list: no-op; otherwise plays the song at PrevIndex of the current index; the list is unchanged |
| PlayerState.SkipNextTimesFollowsSongs | app/src/main/java/com/example/integradorasensorproximidad/ui/viewmodel/PlayerViewModel.kt:183-193 | k skipNext calls follow NextSongTimes and keep the list |
| PlayerState.SkipNextFullCycle | app/src/main/java/com/example/integradorasensorproximidad/ui/viewmodel/PlayerViewModel.kt:183-193 | n skipNext calls over a list without repeats return to the starting song |
| PlayerState.SkipPreviousThenNext | app/src/main/java/com/example/integradorasensorproximidad/ui/viewmodel/PlayerViewModel.kt:183-205 | in a list without repeats, skipPrevious then skipNext, and the reverse, return to the current song |
| PlayerState.SeekTo | app/src/main/java/com/example/integradorasensorproximidad/ui/viewmodel/PlayerViewModel.kt:207-210 | currentPosition becomes exactly the requested position, without clamping; the engine seeks to position.toInt() |
| PlayerState.CompletionListener | app/src/main/java/com/example/integradorasensorproximidad/ui/viewmodel/PlayerViewModel.kt:122-158 | the listener runs skipNext when a playing engine reaches the end and when a preparing or prepared engine reports an error; an engine whose setup threw or that was released calls nothing |
| PlayerState.ErrorWhilePreparingSkips | app/src/main/java/com/example/integradorasensorproximidad/ui/viewmodel/PlayerViewModel.kt:122-158 | an error while preparing (a stream that cannot be opened) plays the next song of the list, and given a source leaves a fresh engine that can fail the same way |
| PlayerState.ErrorsWalkTheList | app/src/main/java/com/example/integradorasensorproximidad/ui/viewmodel/PlayerViewModel.kt:122-193 | while every stream fails, k errors in a row play the song k places on, wrapping around, and leave a preparing engine |
| PlayerState.LoadAllSongs | app/src/main/java/com/example/integradorasensorproximidad/ui/viewmodel/PlayerViewModel.kt:66-98 | never left loading; network success shows the merged list, failure only the local songs with "Error de red. Mostrando solo canciones locales."; with a current song or an empty list the whole new state is the old one with only isLoading, songList and error changed; with no current song the result is exactly prepareSong of the first song of the new list, applied to the state with the new list and error |
| PlayerState.OnPermissionResult | app/src/main/java/com/example/integradorasensorproximidad/ui/viewmodel/PlayerViewModel.kt:59-64 | records the answer and clears the error; a grant starts loading; the whole new state is the old one with only permissionGranted, error and isLoading changed |
| PlayerState.EnableProximitySensor | app/src/main/java/com/example/integradorasensorproximidad/ui/viewmodel/PlayerViewModel.kt:214-226 | no sensor: only the error "Sensor de proximidad no disponible en este dispositivo."; otherwise the helper starts or stops listening and the flag follows |
| PlayerState.Dispatch | app/src/main/java/com/example/integradorasensorproximidad/ui/viewmodel/PlayerViewModel.kt:49-56 | the helper's callbacks are togglePlayPause, skipNext and skipPrevious |
| PlayerState.EventOf | app/src/main/java/com/example/integradorasensorproximidad/ui/viewmodel/PlayerViewModel.kt:52 | isPlayingProvider reads the UI state's isPlaying at the moment of the reading |
| PlayerState.OnProximity | app/src/main/java/com/example/integradorasensorproximidad/ui/viewmodel/PlayerViewModel.kt:49-56 | a proximity input is handled by the helper and its callbacks run in order on the view model; the invariant is kept |
| PlayerState.OnProximityAllCons | app/src/main/java/com/example/integradorasensorproximidad/ui/viewmodel/PlayerViewModel.kt:49-56 | inputs are handled one after the other |
| PlayerState.TwoWavesFromFirstPlayLast | app/src/main/java/com/example/integradorasensorproximidad/ui/viewmodel/PlayerViewModel.kt:195-205 | two quick waves while the first of [a, b, c] plays make the wave job play c (wrapping backwards) from position 0, and once prepared c plays with its reported duration |
| PlayerState.OnAddSongClicked | app/src/main/java/com/example/integradorasensorproximidad/ui/viewmodel/PlayerViewModel.kt:230-245 | the song is remembered; fetched playlists clear the error and open the dialog with them; a failure sets "No se pudieron cargar las playlists." and leaves the dialog as it was; in both cases the whole new state is stated and nothing else changes |
| PlayerState.OnDismissAddToPlaylistDialog | app/src/main/java/com/example/integradorasensorproximidad/ui/viewmodel/PlayerViewModel.kt:247-255 | closes the dialog and forgets the song and the playlists, nothing else |
| PlayerState.AddId | app/src/main/java/com/example/integradorasensorproximidad/ui/viewmodel/PlayerViewModel.kt:282-299 | an id already present: the error and the dialog closed, nothing sent; otherwise the playlist with the id appended is sent, an update failure is reported with "Error al actualizar la playlist: ", and the dialog closes; in both cases the whole new state is the dismissed dialog of the old state with only the error set |
| PlayerState.UploadAndAdd | app/src/main/java/com/example/integradorasensorproximidad/ui/viewmodel/PlayerViewModel.kt:265-277 | a local song is uploaded first ("Subiendo canción al servidor..."); a failed upload reports "Error al subir la canción: " + its message and closes the dialog, the whole new state being the dismissed dialog with only that error set; an accepted one is exactly AddId of the server's id after "uploading" is shown |
| PlayerState.AddSongToPlaylist | app/src/main/java/com/example/integradorasensorproximidad/ui/viewmodel/PlayerViewModel.kt:257-300 | no remembered song: nothing; a network song adds its own id, a local one is uploaded first; whatever is sent is the playlist with one new id appended |
| PlayerViewModel.PlayerViewModel.PlaySong | app/src/main/java/com/example/integradorasensorproximidad/ui/viewmodel/PlayerViewModel.kt:130-164 | the object's new state is PlayerState.PlaySong of the old one |
| PlayerViewModel.PlayerViewModel.PrepareSong | app/src/main/java/com/example/integradorasensorproximidad/ui/viewmodel/PlayerViewModel.kt:102-127 | the object's new state is PlayerState.PrepareSong of the old one |
| PlayerViewModel.PlayerViewModel.OnPrepared | app/src/main/java/com/example/integradorasensorproximidad/ui/viewmodel/PlayerViewModel.kt:150-154 | the object's new state is PlayerState.PreparedListener of the old one |
| PlayerViewModel.PlayerViewModel.OnCompletion | app/src/main/java/com/example/integradorasensorproximidad/ui/viewmodel/PlayerViewModel.kt:122-158 | the object's new state is PlayerState.CompletionListener of the old one, for either cause |
| PlayerViewModel.PlayerViewModel.TogglePlayPause | app/src/main/java/com/example/integradorasensorproximidad/ui/viewmodel/PlayerViewModel.kt:166-181 | the object's new state is PlayerState.TogglePlayPause of the old one |
| PlayerViewModel.PlayerViewModel.SkipNext | app/src/main/java/com/example/integradorasensorproximidad/ui/viewmodel/PlayerViewModel.kt:183-193 | the object's new state is PlayerState.SkipNext of the old one |
| PlayerViewModel.PlayerViewModel.SkipPrevious | app/src/main/java/com/example/integradorasensorproximidad/ui/viewmodel/PlayerViewModel.kt:195-205 | the object's new state is PlayerState.SkipPrevious of the old one |
| PlayerViewModel.PlayerViewModel.SeekTo | app/src/main/java/com/example/integradorasensorproximidad/ui/viewmodel/PlayerViewModel.kt:207-210 | the object's new state is PlayerState.SeekTo of the old one |
| PlayerViewModel.PlayerViewModel.OnPermissionResult | app/src/main/java/com/example/integradorasensorproximidad/ui/viewmodel/PlayerViewModel.kt:59-64 | the object's new state is PlayerState.OnPermissionResult of the old one |
| PlayerViewModel.PlayerViewModel.OnSongsLoaded | app/src/main/java/com/example/integradorasensorproximidad/ui/viewmodel/PlayerViewModel.kt:66-98 | the object's new state is PlayerState.LoadAllSongs of the old one |
| PlayerViewModel.PlayerViewModel.EnableProximitySensor | app/src/main/java/com/example/integradorasensorproximidad/ui/viewmodel/PlayerViewModel.kt:214-226 | the object's and its helper's new state is PlayerState.EnableProximitySensor of the old one |
| PlayerViewModel.PlayerViewModel.DispatchFrom | app/src/main/java/com/example/integradorasensorproximidad/ui/viewmodel/PlayerViewModel.kt:49-56 | running the callbacks logged since position `from`, in order, leaves PlayerState.DispatchAll of them |
| PlayerViewModel.PlayerViewModel.OnSensorReading | app/src/main/java/com/example/integradorasensorproximidad/ui/viewmodel/PlayerViewModel.kt:49-56 | a reading handled by the helper object and its callbacks leaves PlayerState.OnProximity of the old state |
| PlayerViewModel.PlayerViewModel.OnLongPressDelay | app/src/main/java/com/example/integradorasensorproximidad/ui/viewmodel/PlayerViewModel.kt:49-56 | the long-press timer handled by the helper object leaves PlayerState.OnProximity of the old state |
| PlayerViewModel.PlayerViewModel.OnWaveDelay | app/src/main/java/com/example/integradorasensorproximidad/ui/viewmodel/PlayerViewModel.kt:49-56 | the wave job handled by the helper object leaves PlayerState.OnProximity of the old state |
| PlayerViewModel.PlayerViewModel.OnAddSongClicked | app/src/main/java/com/example/integradorasensorproximidad/ui/viewmodel/PlayerViewModel.kt:230-245 | the object's new state is PlayerState.OnAddSongClicked of the old one |
| PlayerViewModel.PlayerViewModel.OnDismissAddToPlaylistDialog | app/src/main/java/com/example/integradorasensorproximidad/ui/viewmodel/PlayerViewModel.kt:247-255 | the object's new state is PlayerState.OnDismissAddToPlaylistDialog of the old one |
| PlayerViewModel.PlayerViewModel.AddSongToPlaylist | app/src/main/java/com/example/integradorasensorproximidad/ui/viewmodel/PlayerViewModel.kt:257-300 | the new state and the playlist sent are those of PlayerState.AddSongToPlaylist |
| PlayerViewModel.PlayerViewModel.AddId | app/src/main/java/com/example/integradorasensorproximidad/ui/viewmodel/PlayerViewModel.kt:282-299 | the new state and the playlist sent are those of PlayerState.AddId |
| PlayerViewModel.PlayerViewModel.UploadAndAdd | app/src/main/java/com/example/integradorasensorproximidad/ui/viewmodel/PlayerViewModel.kt:265-277 | the new state and the playlist sent are those of PlayerState.UploadAndAdd |
| PlayerViewModel.PlayerViewModel.ReleasePlayer | app/src/main/java/com/example/integradorasensorproximidad/ui/viewmodel/PlayerViewModel.kt:134 | mediaPlayer?.release(): the held engine is released and nothing else changes |
| LegacyPlayer.PlaySong | app/src/main/java/com/example/integradorasensorproximidad/ui/player/PlayerViewModel.kt:123-147 | releases the engine and shows the song playing at position 0, keeping the old total duration and the progress job; no source: the error with the released engine in place; an exception: the error with isPlaying still true |
| LegacyPlayer.PrepareSong | app/src/main/java/com/example/integradorasensorproximidad/ui/player/PlayerViewModel.kt:101-121 | the song shown as not playing at position 0, the old duration kept; the same three outcomes with the prepare messages |
| LegacyPlayer.PreparedListener | app/src/main/java/com/example/integradorasensorproximidad/ui/player/PlayerViewModel.kt:115-141 | a preparing engine becomes prepared with its duration recorded; playSong's engine starts with progress updates |
| LegacyPlayer.TogglePlayPause | app/src/main/java/com/example/integradorasensorproximidad/ui/player/PlayerViewModel.kt:149-161 | no player: no-op; playing: paused; otherwise start() is called with no duration guard and isPlaying becomes true |
| LegacyPlayer.ToggleWhilePreparing | app/src/main/java/com/example/integradorasensorproximidad/ui/player/PlayerViewModel.kt:149-161 | toggling while the engine still prepares shows the song as playing, starts progress updates and leaves the engine silent |
| LegacyPlayer.SkipNext | app/src/main/java/com/example/integradorasensorproximidad/ui/player/PlayerViewModel.kt:163-169 | empty list: no-op; otherwise plays the song at LegacyNextIndex, which is the next song with wrap-around, or the first for a missing song |
| LegacyPlayer.SkipPrevious | app/src/main/java/com/example/integradorasensorproximidad/ui/player/PlayerViewModel.kt:171-177 | empty list: no-op; it throws exactly when the list is non-empty and the current song is missing, changing nothing; otherwise plays the previous song with wrap-around |
| LegacyPlayer.SeekTo | app/src/main/java/com/example/integradorasensorproximidad/ui/player/PlayerViewModel.kt:179-182 | currentPosition becomes exactly the requested position; the engine seeks to position.toInt() |
| LegacyPlayer.CompletionListener | app/src/main/java/com/example/integradorasensorproximidad/ui/player/PlayerViewModel.kt:116-142 | as in the later revision: skipNext runs at the end of playback and after an engine error |
| LegacyPlayer.EnableProximitySensor | app/src/main/java/com/example/integradorasensorproximidad/ui/player/PlayerViewModel.kt:186-198 | no sensor: the error, and the flag unchanged; otherwise registers or unregisters and the flag follows; the gesture state is never reset |
| LegacyPlayer.Dispatch | app/src/main/java/com/example/integradorasensorproximidad/ui/player/PlayerViewModel.kt:217-240 | the gestures call togglePlayPause, skipNext and skipPrevious directly |
| LegacyPlayer.Apply | app/src/main/java/com/example/integradorasensorproximidad/ui/player/PlayerViewModel.kt:200-246 | a gesture transition with its callback run; a throwing callback leaves the state as it was |
| LegacyPlayer.OnReading | app/src/main/java/com/example/integradorasensorproximidad/ui/player/PlayerViewModel.kt:200-246 | readings reach the listener only while registered; the gesture transition reads isPlaying from the UI state |
| LegacyPlayer.OnLongPressDelay | app/src/main/java/com/example/integradorasensorproximidad/ui/player/PlayerViewModel.kt:210-221 | the long-press coroutine applies the long-press transition and its toggle |
| LegacyPlayer.OnWaveDelay | app/src/main/java/com/example/integradorasensorproximidad/ui/player/PlayerViewModel.kt:235-243 | the wave job applies the wave transition and its skip |
| LegacyPlayer.WaveSkipsAfterDisable | app/src/main/java/com/example/integradorasensorproximidad/ui/player/PlayerViewModel.kt:186-198 | disabling the sensor right after a wave still lets the pending wave job skip to the next song |
| LegacyPlayer.TwoWavesWithMissingSongThrow | app/src/main/java/com/example/integradorasensorproximidad/ui/player/PlayerViewModel.kt:236-240 | two waves over a list that no longer holds the current song make the wave job throw |
| LegacyViewModel.PlayerViewModel.PlaySong | app/src/main/java/com/example/integradorasensorproximidad/ui/player/PlayerViewModel.kt:123-147 | the object's new state is LegacyPlayer.PlaySong of the old one |
| LegacyViewModel.PlayerViewModel.PrepareSong | app/src/main/java/com/example/integradorasensorproximidad/ui/player/PlayerViewModel.kt:101-121 | the object's new state is LegacyPlayer.PrepareSong of the old one |
| LegacyViewModel.PlayerViewModel.OnPrepared | app/src/main/java/com/example/integradorasensorproximidad/ui/player/PlayerViewModel.kt:115-141 | the object's new state is LegacyPlayer.PreparedListener of the old one |
| LegacyViewModel.PlayerViewModel.OnCompletion | app/src/main/java/com/example/integradorasensorproximidad/ui/player/PlayerViewModel.kt:116-142 | the object's new state is LegacyPlayer.CompletionListener of the old one, for either cause |
| LegacyViewModel.PlayerViewModel.TogglePlayPause | app/src/main/java/com/example/integradorasensorproximidad/ui/player/PlayerViewModel.kt:149-161 | the object's new state is LegacyPlayer.TogglePlayPause of the old one |
| LegacyViewModel.PlayerViewModel.SkipNext | app/src/main/java/com/example/integradorasensorproximidad/ui/player/PlayerViewModel.kt:163-169 | the object's new state is LegacyPlayer.SkipNext of the old one |
| LegacyViewModel.PlayerViewModel.SkipPrevious | app/src/main/java/com/example/integradorasensorproximidad/ui/player/PlayerViewModel.kt:171-177 | the new state and whether it threw are LegacyPlayer.SkipPrevious of the old state |
| LegacyViewModel.PlayerViewModel.SeekTo | app/src/main/java/com/example/integradorasensorproximidad/ui/player/PlayerViewModel.kt:179-182 | the object's new state is LegacyPlayer.SeekTo of the old one |
| LegacyViewModel.PlayerViewModel.EnableProximitySensor | app/src/main/java/com/example/integradorasensorproximidad/ui/player/PlayerViewModel.kt:186-198 | the object's new state is LegacyPlayer.EnableProximitySensor of the old one |
| LegacyViewModel.PlayerViewModel.OnSensorChanged | app/src/main/java/com/example/integradorasensorproximidad/ui/player/PlayerViewModel.kt:200-246 | the new state and whether it threw are LegacyPlayer.OnReading of the old state |
| LegacyViewModel.PlayerViewModel.OnLongPressElapsed | app/src/main/java/com/example/integradorasensorproximidad/ui/player/PlayerViewModel.kt:210-221 | the new state and whether it threw are LegacyPlayer.OnLongPressDelay of the old state |
| LegacyViewModel.PlayerViewModel.OnWaveElapsed | app/src/main/java/com/example/integradorasensorproximidad/ui/player/PlayerViewModel.kt:235-243 | the new state and whether it threw are LegacyPlayer.OnWaveDelay of the old state |
| ScreenGesture.React | app/src/main/java/com/example/integradorasensorproximidad/ui/player/PlayerScreen.kt:186-197 | near exactly when the reading is 0; a gesture fires exactly on a near->far edge more than 1000 ms after the last gesture; the last gesture time moves only when one fires |
| ScreenGesture.NoGestureWithoutRelease | app/src/main/java/com/example/integradorasensorproximidad/ui/player/PlayerScreen.kt:189-191 | a repeated reading, or one that turns the state near, fires nothing and changes nothing else |
| ScreenGesture.RunIsSpaced | app/src/main/java/com/example/integradorasensorproximidad/ui/player/PlayerScreen.kt:192-195 | in any run of readings, whatever the order of the timestamps, each gesture comes more than 1000 ms after the previous one, and the listener's last gesture time is the last of them |
| ScreenGesture.SpacedApart | app/src/main/java/com/example/integradorasensorproximidad/ui/player/PlayerScreen.kt:192-195 | spacing between neighbours gives more than 1000 ms between any two gestures |
| ScreenGesture.GesturesApart | app/src/main/java/com/example/integradorasensorproximidad/ui/player/PlayerScreen.kt:182-197 | any two gestures fired by one listener are more than 1000 ms apart |
| ScreenGesture.Listener.OnSensorChanged | app/src/main/java/com/example/integradorasensorproximidad/ui/player/PlayerScreen.kt:186-197 | the listener's new variables and whether onGesture was called are React of the old ones; each call is appended to the log, which stays spaced |
| PlaylistDetail.FindPlaylist | app/src/main/java/com/example/integradorasensorproximidad/ui/playlists/PlaylistDetailViewModel.kt:61 | find: none exactly when no playlist has the id, otherwise the first one that has it |
| PlaylistDetail.SongsInPlaylist | app/src/main/java/com/example/integradorasensorproximidad/ui/playlists/PlaylistDetailViewModel.kt:66-68 | filter: an order-preserving subsequence holding exactly the songs whose id the playlist lists, each as many times as in the input |
| PlaylistDetail.BeginLoad | app/src/main/java/com/example/integradorasensorproximidad/ui/playlists/PlaylistDetailViewModel.kt:50 | a load starts with isLoading true and error null, the rest kept |
| PlaylistDetail.Init | app/src/main/java/com/example/integradorasensorproximidad/ui/playlists/PlaylistDetailViewModel.kt:40-46 | a positive id starts a load; any other gives "ID de playlist inválido." and no load |
| PlaylistDetail.PlaylistDetailViewModel.constructor | app/src/main/java/com/example/integradorasensorproximidad/ui/playlists/PlaylistDetailViewModel.kt:40-46 | the init block: the object keeps the id and its state is Init(id) |
| PlaylistDetail.CompleteLoad | app/src/main/java/com/example/integradorasensorproximidad/ui/playlists/PlaylistDetailViewModel.kt:53-90 | every branch ends loading; a failed playlists fetch gives "Error al cargar las playlists." whatever the songs gave; a missing id gives "No se encontró la playlist con ID <id>."; a failed songs fetch "Error al cargar las canciones de la red.", all keeping playlist and songs; otherwise the found playlist and its songs |
| PlaylistDetail.ShownSongsBelongToPlaylist | app/src/main/java/com/example/integradorasensorproximidad/ui/playlists/PlaylistDetailViewModel.kt:64-68 | a successful load shows exactly the songs built from the returned records whose id the playlist lists |
| PlaylistDetail.PlaylistDetailViewModel.LoadPlaylistDetails | app/src/main/java/com/example/integradorasensorproximidad/ui/playlists/PlaylistDetailViewModel.kt:48-50 | the object's state becomes BeginLoad of the old one |
| PlaylistDetail.PlaylistDetailViewModel.OnFetched | app/src/main/java/com/example/integradorasensorproximidad/ui/playlists/PlaylistDetailViewModel.kt:59-90 | the object's state becomes CompleteLoad of the old one |

## Left out

- I/O and concurrency are not modelled:
  - Network and MediaStore calls, and Retrofit, are left out. Their results are
    parameters.
  - Coroutine interleavings are left out. Each `viewModelScope.launch` body runs to
    completion at the point where its result is supplied.
  - The concurrent `async` pair in PlaylistDetailViewModel is one step that receives both
    results.
- The sensor float comparisons in ProximitySensorHelper and the earlier view model are
  modelled as a boolean `isNear`. The PlayerScreen test `== 0f` is a comparison of a real
  with 0; NaN readings are not modelled.
- The sensor-type check at the top of onSensorChanged is not modelled: only proximity
  events are delivered.
- MediaPlayer is an abstract engine. Calling start() on an engine that is not prepared is
  an illegal-state error on Android; here it is a no-op. The earlier togglePlayPause can
  make that call on a preparing engine, and the later one on an engine that failed after
  its duration was known (PlayerState.ToggleAfterFailure).
- CompletionListener, OnCompletion: an engine error is one event that moves the engine to
  its error state and then runs the completion listener. MediaPlayer's error codes, and
  errors raised by calls on an engine in a wrong state, are not modelled.
- CompletionListener, OnCompletion: when a song has no source, both revisions keep the
  released engine. A later `isPlaying` or `seekTo` on it throws IllegalStateException on
  Android; here those calls read or change the engine as on any other. No song the
  repository or the local scan builds lacks a source, so this needs a hand-built song.
- The progress loop (startProgressUpdates) is modelled only as an on/off flag. Its polling
  of currentPosition, and its exit when playback stops, are not modelled.
- getLocalSongs, the MediaStore cursor scan, is left out. The local songs are a parameter.
- updateNetworkPlaylist is called by addSongToPlaylist but is not in MusicRepository.kt.
  Its failure message is a parameter.
- Gestures.OnSensorChanged: waveCount is an unbounded natural number. Kotlin's `Int`
  would wrap after 2^31 - 1 waves within one 700 ms window, which cannot happen.
- Timestamp arithmetic uses unbounded integers. The Long subtraction in PlayerScreen
  cannot overflow for real clock values.
- `${e.message}` of an exception without a message renders as "null". The model takes
  the message as a plain string.
- PlayerState.TogglePlayPause: a stream whose reported duration is 0 or negative
  (unknown length) can be paused but never resumed by toggling. The property is faithful
  to the guard and is stated as the no-op branch.
- onCleared and onAccuracyChanged are left out: lifecycle teardown, with no logic beyond
  release and unregister.
- Some of the earlier view model's code is not modelled at all:
  - its loading (onPermissionResult, loadNetworkSongs, loadLocalSongs). It shows the
    network list alone, or on failure "Error al cargar canciones de la red: " + message
    and then the local list;
  - its add-to-playlist code.
  Both are outside the gesture and sequencing logic this model covers.
- The earlier view model's skipPrevious, when it throws, crashes the app. The model
  reports `threw` and keeps the state before the call. It does not model the crash, or
  the partial state a failed wave job leaves.
- PlaylistsViewModel, navigation and all Compose UI are left out. Of PlayerScreen, only
  the sensor listener is modelled; its registration and disposal are not.

## Findings

| source | as written | input that shows it | evidently intended | confidence | as-written member | corrected member |
|---|---|---|---|---|---|---|
| app/src/main/java/com/example/integradorasensorproximidad/ui/player/PlayerViewModel.kt:171-177 | the previous index is `currentIndex - 1` unless it is 0, so a current song missing from the list (indexOf = -1) gives index -2 and `songList[-2]` throws | songList = [a], currentSong = b with b not in the list (for example, a network song is playing when a later permission grant reloads the songs, the network fails and the list is replaced by the local songs alone) | play the first song when the current song is missing, as the newer revision does | not executed | LegacyPlayer.SkipPrevious | PlayerState.SkipPrevious |

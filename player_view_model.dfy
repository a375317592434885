/** ui/viewmodel/PlayerViewModel.kt as a class: the published UI state, the media player
    and the progress job are fields reassigned step by step as in the Kotlin code, and
    the proximity sensor helper is an object of its own. Every method is proved to leave
    the view model in the state the matching function of module PlayerState computes, so
    the properties proved there hold of the class. */
module PlayerViewModel {
  import opened Base
  import opened Models
  import opened PlaybackEngine
  import opened PlayerState
  import Gestures
  import SongLists
  import SensorHelper
  import Repository

  class PlayerViewModel {
    var ui: PlayerUiState
    var mediaPlayer: Option<Engine>
    var progressUpdating: bool
    const sensorHelper: SensorHelper.ProximitySensorHelper

    function Current(): Snapshot
      reads this, sensorHelper
    {
      Snapshot(ui, mediaPlayer, progressUpdating, sensorHelper.Current())
    }

    ghost predicate Valid()
      reads this, sensorHelper
    {
      PlayerState.Valid(Current())
    }

    /** `sensorAvailable` is whether the device has a proximity sensor. */
    constructor (sensorAvailable: bool)
      ensures Valid() && Current() == PlayerState.Initial(sensorAvailable)
      ensures fresh(sensorHelper) && sensorHelper.emitted == []
    {
      ui := InitialUi;
      mediaPlayer := None;
      progressUpdating := false;
      sensorHelper := new SensorHelper.ProximitySensorHelper(sensorAvailable);
    }

    /** `mediaPlayer?.release()` */
    method ReleasePlayer()
      modifies this
      ensures mediaPlayer == ReleaseIfAny(old(mediaPlayer))
      ensures ui == old(ui) && progressUpdating == old(progressUpdating)
    {
      if mediaPlayer.Some? {
        mediaPlayer := Some(Release(mediaPlayer.value));
      }
    }

    method PlaySong(song: Song, fault: Option<string>)
      requires Valid()
      modifies this
      ensures Valid()
      ensures Current() == PlayerState.PlaySong(old(Current()), song, fault)
    {
      progressUpdating := false;
      ReleasePlayer();
      ui := ui.(currentSong := Some(song), isPlaying := true, currentPosition := 0, totalDuration := 0);
      var source := SourceOf(song);
      if source.None? {
        ui := ui.(error := Some(NoSourcePlayMessage));
        return;
      }
      if fault.Some? {
        mediaPlayer := Some(NewBroken(source, true));
        ui := ui.(error := Some(PlayErrorPrefix + fault.value));
        ui := ui.(isPlaying := false);
      } else {
        mediaPlayer := Some(NewPreparing(source.value, true));
      }
    }

    method PrepareSong(song: Song, fault: Option<string>)
      requires Valid()
      modifies this
      ensures Valid()
      ensures Current() == PlayerState.PrepareSong(old(Current()), song, fault)
    {
      ui := ui.(currentSong := Some(song), isPlaying := false, currentPosition := 0, totalDuration := 0);
      ReleasePlayer();
      var source := SourceOf(song);
      if source.None? {
        ui := ui.(error := Some(NoSourcePrepareMessage));
        return;
      }
      if fault.Some? {
        mediaPlayer := Some(NewBroken(source, false));
        ui := ui.(error := Some(PrepareErrorPrefix + fault.value));
      } else {
        mediaPlayer := Some(NewPreparing(source.value, false));
      }
    }

    /** The engine's prepared notification, `duration` being what it reports. */
    method OnPrepared(duration: int)
      requires Valid()
      modifies this
      ensures Valid()
      ensures Current() == PlayerState.PreparedListener(old(Current()), duration)
    {
      if mediaPlayer.None? || mediaPlayer.value.phase != Preparing {
        return;
      }
      var mp := mediaPlayer.value;
      ui := ui.(totalDuration := duration);
      mediaPlayer := Some(PlaybackEngine.OnPrepared(mp));
      if mp.startsWhenPrepared {
        progressUpdating := true;
      }
    }

    /** The engine's completion notification. */
    method OnCompletion(cause: CompletionCause, fault: Option<string>)
      requires Valid()
      modifies this
      ensures Valid()
      ensures Current() == PlayerState.CompletionListener(old(Current()), cause, fault)
    {
      if mediaPlayer.None? || !Completes(mediaPlayer.value, cause) {
        return;
      }
      mediaPlayer := Some(Complete(mediaPlayer.value, cause));
      SkipNext(fault);
    }

    method TogglePlayPause()
      requires Valid()
      modifies this
      ensures Valid()
      ensures Current() == PlayerState.TogglePlayPause(old(Current()))
    {
      if mediaPlayer.None? {
        return;
      }
      var mp := mediaPlayer.value;
      if mp.playing {
        mediaPlayer := Some(Pause(mp));
        progressUpdating := false;
        ui := ui.(isPlaying := false);
      } else if ui.totalDuration > 0 {
        mediaPlayer := Some(Start(mp));
        progressUpdating := true;
        ui := ui.(isPlaying := true);
      }
    }

    method SkipNext(fault: Option<string>)
      requires Valid()
      modifies this
      ensures Valid()
      ensures Current() == PlayerState.SkipNext(old(Current()), fault)
    {
      var list := ui.songList;
      if list == [] {
        return;
      }
      var currentIndex := SongLists.IndexOf(list, ui.currentSong);
      if currentIndex == -1 {
        PlaySong(list[0], fault);
        return;
      }
      var nextIndex := if currentIndex >= |list| - 1 then 0 else currentIndex + 1;
      PlaySong(list[nextIndex], fault);
    }

    method SkipPrevious(fault: Option<string>)
      requires Valid()
      modifies this
      ensures Valid()
      ensures Current() == PlayerState.SkipPrevious(old(Current()), fault)
    {
      var list := ui.songList;
      if list == [] {
        return;
      }
      var currentIndex := SongLists.IndexOf(list, ui.currentSong);
      if currentIndex == -1 {
        PlaySong(list[0], fault);
        return;
      }
      var prevIndex := if currentIndex <= 0 then |list| - 1 else currentIndex - 1;
      PlaySong(list[prevIndex], fault);
    }

    method SeekTo(position: int)
      requires Valid()
      modifies this
      ensures Valid()
      ensures Current() == PlayerState.SeekTo(old(Current()), position)
    {
      if mediaPlayer.Some? {
        mediaPlayer := Some(PlaybackEngine.SeekTo(mediaPlayer.value, position));
      }
      ui := ui.(currentPosition := position);
    }

    method OnPermissionResult(isGranted: bool)
      requires Valid()
      modifies this
      ensures Valid()
      ensures Current() == PlayerState.OnPermissionResult(old(Current()), isGranted)
    {
      ui := ui.(permissionGranted := isGranted, error := None);
      if isGranted {
        ui := ui.(isLoading := true);
      }
    }

    /** The rest of loadAllSongs, once the network result and the local songs are in. */
    method OnSongsLoaded(network: Result<seq<Song>>, local: seq<Song>, fault: Option<string>)
      requires Valid()
      modifies this
      ensures Valid()
      ensures Current() == PlayerState.LoadAllSongs(old(Current()), network, local, fault)
    {
      var list: seq<Song>;
      if network.Ok? {
        list := SongLists.MergeSongs(network.value, local);
        ui := ui.(isLoading := false, songList := list, error := None);
      } else {
        list := local;
        ui := ui.(isLoading := false, songList := list, error := Some(NetworkErrorMessage));
      }
      if list != [] && ui.currentSong.None? {
        PrepareSong(list[0], fault);
      }
    }

    method EnableProximitySensor(enable: bool)
      requires Valid()
      modifies this, sensorHelper
      ensures Valid()
      ensures Current() == PlayerState.EnableProximitySensor(old(Current()), enable)
      ensures sensorHelper.emitted == old(sensorHelper.emitted)
    {
      if !sensorHelper.isSensorAvailable {
        ui := ui.(error := Some(SensorUnavailableMessage));
        return;
      }
      if enable {
        sensorHelper.StartListening();
      } else {
        sensorHelper.StopListening();
      }
      ui := ui.(isProximitySensorEnabled := enable);
    }

    method Dispatch(c: Gestures.Callback, fault: Option<string>)
      requires Valid()
      modifies this
      ensures Valid()
      ensures Current() == PlayerState.Dispatch(old(Current()), c, fault)
    {
      match c
      case TogglePlayPause => TogglePlayPause();
      case SkipNext => SkipNext(fault);
      case SkipPrevious => SkipPrevious(fault);
    }

    /** Runs the callbacks the helper invoked from index `from` of its log on. */
    method DispatchFrom(from: nat, fault: Option<string>)
      requires Valid() && from <= |sensorHelper.emitted|
      modifies this
      ensures Valid()
      ensures Current() == PlayerState.DispatchAll(old(Current()), sensorHelper.emitted[from..], fault)
    {
      var out := sensorHelper.emitted[from..];
      ghost var target := PlayerState.DispatchAll(Current(), out, fault);
      var k := 0;
      while k < |out|
        invariant 0 <= k <= |out| && Valid()
        invariant PlayerState.DispatchAll(Current(), out[k..], fault) == target
        invariant sensorHelper.emitted == old(sensorHelper.emitted)
      {
        assert out[k..][0] == out[k] && out[k..][1..] == out[k + 1..];
        Dispatch(out[k], fault);
        k := k + 1;
      }
      assert out[k..] == [];
    }

    /** A near/far reading from the sensor service: delivered to the helper only while it
        is registered, with isPlayingProvider reading the UI state. */
    method OnSensorReading(isNear: bool, now: int, fault: Option<string>)
      requires Valid()
      modifies this, sensorHelper
      ensures Valid()
      ensures Current() == PlayerState.OnProximity(old(Current()), Reading(isNear, now), fault)
    {
      ghost var before := Current();
      var from := |sensorHelper.emitted|;
      if sensorHelper.registered {
        sensorHelper.OnSensorChanged(isNear, now, ui.isPlaying);
      }
      assert sensorHelper.emitted[from..] ==
        SensorHelper.Exec(before.sensor, SensorHelper.Deliver(EventOf(before, Reading(isNear, now)))).out;
      DispatchFrom(from, fault);
    }

    /** The end of the long-press delay started at `startTime`. */
    method OnLongPressDelay(startTime: int, fault: Option<string>)
      requires Valid()
      modifies this, sensorHelper
      ensures Valid()
      ensures Current() == PlayerState.OnProximity(old(Current()), LongPressTimer(startTime), fault)
    {
      ghost var before := Current();
      var from := |sensorHelper.emitted|;
      sensorHelper.OnLongPressElapsed(startTime);
      assert sensorHelper.emitted[from..] ==
        SensorHelper.Exec(before.sensor, SensorHelper.Deliver(EventOf(before, LongPressTimer(startTime)))).out;
      DispatchFrom(from, fault);
    }

    /** The end of the wave delay of generation `gen`. */
    method OnWaveDelay(gen: nat, fault: Option<string>)
      requires Valid()
      modifies this, sensorHelper
      ensures Valid()
      ensures Current() == PlayerState.OnProximity(old(Current()), WaveTimer(gen), fault)
    {
      ghost var before := Current();
      var from := |sensorHelper.emitted|;
      sensorHelper.OnWaveElapsed(gen);
      assert sensorHelper.emitted[from..] ==
        SensorHelper.Exec(before.sensor, SensorHelper.Deliver(EventOf(before, WaveTimer(gen)))).out;
      DispatchFrom(from, fault);
    }

    /** onAddSongClicked, once the playlists fetch is back. */
    method OnAddSongClicked(song: Song, playlists: Result<seq<Playlist>>)
      requires Valid()
      modifies this
      ensures Valid()
      ensures Current() == PlayerState.OnAddSongClicked(old(Current()), song, playlists)
    {
      ui := ui.(songToAddToPlaylist := Some(song), error := None);
      if playlists.Ok? {
        ui := ui.(availablePlaylists := playlists.value, showAddToPlaylistDialog := true);
      } else {
        ui := ui.(error := Some(PlaylistsErrorMessage));
      }
    }

    method OnDismissAddToPlaylistDialog()
      requires Valid()
      modifies this
      ensures Valid()
      ensures Current() == PlayerState.OnDismissAddToPlaylistDialog(old(Current()))
    {
      ui := ui.(showAddToPlaylistDialog := false, songToAddToPlaylist := None, availablePlaylists := []);
    }

    /** The tail of addSongToPlaylist once the id to add is known. */
    method AddId(playlist: Playlist, songIdToAdd: int, updateFailure: Option<string>) returns (sent: Option<Playlist>)
      requires Valid()
      modifies this
      ensures Valid()
      ensures PlayerState.AddId(old(Current()), playlist, songIdToAdd, updateFailure) == AddResult(Current(), sent)
    {
      if songIdToAdd in playlist.songIds {
        ui := ui.(error := Some("La canción ya está en esta playlist."));
        OnDismissAddToPlaylistDialog();
        return None;
      }
      sent := Some(playlist.(songIds := playlist.songIds + [songIdToAdd]));
      if updateFailure.Some? {
        ui := ui.(error := Some(UpdateErrorPrefix + updateFailure.value));
      }
      OnDismissAddToPlaylistDialog();
    }

    /** The local-song branch of addSongToPlaylist: upload first, then add the server's id. */
    method UploadAndAdd(songToAdd: Song, playlist: Playlist, upload: Repository.UploadOutcome, updateFailure: Option<string>)
      returns (sent: Option<Playlist>)
      requires Valid() && IsLocalSong(songToAdd)
      modifies this
      ensures Valid()
      ensures PlayerState.UploadAndAdd(old(Current()), songToAdd, playlist, upload, updateFailure) == AddResult(Current(), sent)
    {
      ui := ui.(error := Some(UploadingMessage));
      var uploadResult := Repository.UploadSong(songToAdd, upload);
      if uploadResult.Failure? {
        ui := ui.(error := Some(UploadErrorPrefix + uploadResult.message));
        OnDismissAddToPlaylistDialog();
        return None;
      }
      sent := AddId(playlist, uploadResult.value.id, updateFailure);
    }

    /** addSongToPlaylist; `sent` is the playlist handed to the server update, if any. */
    method AddSongToPlaylist(playlist: Playlist, upload: Repository.UploadOutcome, updateFailure: Option<string>)
      returns (sent: Option<Playlist>)
      requires Valid()
      modifies this
      ensures Valid()
      ensures PlayerState.AddSongToPlaylist(old(Current()), playlist, upload, updateFailure) == AddResult(Current(), sent)
    {
      if ui.songToAddToPlaylist.None? {
        return None;
      }
      var songToAdd := ui.songToAddToPlaylist.value;
      if IsLocalSong(songToAdd) {
        sent := UploadAndAdd(songToAdd, playlist, upload, updateFailure);
      } else {
        sent := AddId(playlist, songToAdd.id, updateFailure);
      }
    }
  }
}

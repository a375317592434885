/** PlaylistDetailViewModel: the screen that shows one playlist and the network songs in
    it. A valid id starts a load; the load fetches all playlists and all network songs,
    picks the playlist with the id and keeps, in server order, the songs it lists. The
    two fetches are inputs: what getNetworkPlaylists returned, and what the songs API
    returned before getNetworkSongs mapped it. */
module PlaylistDetail {
  import opened Base
  import opened Models
  import SongLists
  import Repository
  import Formatting

  const InvalidIdMessage: string := "ID de playlist inválido."
  const PlaylistsErrorMessage: string := "Error al cargar las playlists."
  const SongsErrorMessage: string := "Error al cargar las canciones de la red."

  const NotFoundPrefix: string := "No se encontró la playlist con ID "

  /** "No se encontró la playlist con ID <id>.": the id can be read back from the text
      between the prefix and the final full stop. */
  function NotFoundMessage(id: int): (m: string)
    ensures |m| >= |NotFoundPrefix| + 2 && m[..|NotFoundPrefix|] == NotFoundPrefix && m[|m| - 1] == '.'
    ensures id >= 0 ==>
      Formatting.AllDigits(m[|NotFoundPrefix|..|m| - 1]) && Formatting.Value(m[|NotFoundPrefix|..|m| - 1]) == id
    ensures id < 0 ==>
      m[|NotFoundPrefix|] == '-' && Formatting.AllDigits(m[|NotFoundPrefix| + 1..|m| - 1])
      && Formatting.Value(m[|NotFoundPrefix| + 1..|m| - 1]) == -id
  {
    var digits := Formatting.IntToString(id);
    var m := NotFoundPrefix + digits + ".";
    assert m[|NotFoundPrefix|..|m| - 1] == digits;
    assert m[|NotFoundPrefix| + 1..|m| - 1] == digits[1..];
    m
  }

  datatype PlaylistDetailUiState = PlaylistDetailUiState(
    playlist: Option<Playlist>,
    songs: seq<Song>,
    isLoading: bool,
    error: Option<string>)

  const InitialUi: PlaylistDetailUiState := PlaylistDetailUiState(None, [], false, None)

  /** No playlist before position k has the id. */
  predicate IdAbsentBefore(playlists: seq<Playlist>, id: int, k: int)
    requires 0 <= k <= |playlists|
  {
    forall j :: 0 <= j < k ==> playlists[j].id != id
  }

  /** `find { it.id == id }`: the first playlist with the id, or None when none has it. */
  function FindPlaylist(playlists: seq<Playlist>, id: int): (r: Option<Playlist>)
    ensures r.None? <==> forall k :: 0 <= k < |playlists| ==> playlists[k].id != id
    ensures r.Some? ==>
      exists k :: 0 <= k < |playlists| && playlists[k] == r.value && r.value.id == id && IdAbsentBefore(playlists, id, k)
    decreases |playlists|
  {
    if playlists == [] then None
    else if playlists[0].id == id then Some(playlists[0])
    else
      var r := FindPlaylist(playlists[1..], id);
      if r.Some? then
        var k :| 0 <= k < |playlists| - 1 && playlists[1..][k] == r.value && r.value.id == id && IdAbsentBefore(playlists[1..], id, k);
        assert playlists[k + 1] == r.value && IdAbsentBefore(playlists, id, k + 1);
        r
      else r
  }

  /** `filter { songIds.contains(it.id) }`: the songs the playlist lists, in server order. */
  function SongsInPlaylist(songs: seq<Song>, songIds: seq<int>): (r: seq<Song>)
    ensures SongLists.IsSubsequence(r, songs)
    ensures forall s :: s in r <==> s in songs && s.id in songIds
    ensures forall x :: multiset(r)[x] == (if x.id in songIds then multiset(songs)[x] else 0)
    decreases |songs|
  {
    if songs == [] then []
    else
      assert songs == [songs[0]] + songs[1..];
      if songs[0].id in songIds then [songs[0]] + SongsInPlaylist(songs[1..], songIds)
      else SongsInPlaylist(songs[1..], songIds)
  }

  /** The start of a load: loading, no error, the rest as it was. */
  function BeginLoad(ui: PlaylistDetailUiState): (r: PlaylistDetailUiState)
    ensures r.isLoading && r.error.None?
    ensures r.playlist == ui.playlist && r.songs == ui.songs
  {
    ui.(isLoading := true, error := None)
  }

  /** The state the constructor leaves: a load under way for a positive id, an error and
      no load otherwise. */
  function Init(playlistId: int): (r: PlaylistDetailUiState)
    ensures playlistId > 0 ==> r == BeginLoad(InitialUi)
    ensures playlistId <= 0 ==> r == InitialUi.(error := Some(InvalidIdMessage))
    ensures r.isLoading <==> playlistId > 0
  {
    if playlistId > 0 then BeginLoad(InitialUi) else InitialUi.(error := Some(InvalidIdMessage))
  }

  /** The end of a load: every branch stops loading; only a found playlist with fetched
      songs replaces the playlist and the songs, and every other branch sets its error and
      keeps them. A failed playlists fetch wins over whatever the songs fetch gave. */
  function CompleteLoad(ui: PlaylistDetailUiState, playlistId: int,
                        playlists: Result<seq<Playlist>>, songsApi: Result<seq<NetworkSong>>)
    : (r: PlaylistDetailUiState)
    ensures !r.isLoading
    ensures playlists.Failure? ==> r == ui.(error := Some(PlaylistsErrorMessage), isLoading := false)
    ensures playlists.Ok? && FindPlaylist(playlists.value, playlistId).None? ==>
      r == ui.(error := Some(NotFoundMessage(playlistId)), isLoading := false)
    ensures playlists.Ok? && FindPlaylist(playlists.value, playlistId).Some? && songsApi.Failure? ==>
      r == ui.(error := Some(SongsErrorMessage), isLoading := false)
    ensures playlists.Ok? && FindPlaylist(playlists.value, playlistId).Some? && songsApi.Ok? ==>
      var p := FindPlaylist(playlists.value, playlistId).value;
      && r.playlist == Some(p) && p.id == playlistId
      && r.error == ui.error
      && r.songs == SongsInPlaylist(Repository.MapNetworkSongs(songsApi.value), p.songIds)
    ensures r.playlist != ui.playlist ==> r.playlist.Some? && r.playlist.value.id == playlistId
  {
    match playlists
    case Failure(_) => ui.(error := Some(PlaylistsErrorMessage), isLoading := false)
    case Ok(all) =>
      match FindPlaylist(all, playlistId)
      case None => ui.(error := Some(NotFoundMessage(playlistId)), isLoading := false)
      case Some(p) =>
        match Repository.GetNetworkSongs(songsApi)
        case Failure(_) => ui.(error := Some(SongsErrorMessage), isLoading := false)
        case Ok(networkSongs) => ui.(playlist := Some(p), songs := SongsInPlaylist(networkSongs, p.songIds), isLoading := false)
  }

  /** Every song a successful load shows is a network song of the playlist, built from a
      server record the songs API returned, and every such song is shown. */
  lemma ShownSongsBelongToPlaylist(ui: PlaylistDetailUiState, playlistId: int,
                                   all: seq<Playlist>, records: seq<NetworkSong>)
    requires FindPlaylist(all, playlistId).Some?
    ensures var r := CompleteLoad(ui, playlistId, Ok(all), Ok(records));
      forall s :: s in r.songs <==>
        (exists k :: 0 <= k < |records| && s == Repository.ToSong(records[k]) && records[k].id in r.playlist.value.songIds)
  {
    var r := CompleteLoad(ui, playlistId, Ok(all), Ok(records));
    var mapped := Repository.MapNetworkSongs(records);
    forall s
      ensures s in r.songs <==>
        (exists k :: 0 <= k < |records| && s == Repository.ToSong(records[k]) && records[k].id in r.playlist.value.songIds)
    {
      if s in r.songs {
        var k :| 0 <= k < |mapped| && mapped[k] == s;
        assert records[k].id == s.id;
      }
      if exists k :: 0 <= k < |records| && s == Repository.ToSong(records[k]) && records[k].id in r.playlist.value.songIds {
        var k :| 0 <= k < |records| && s == Repository.ToSong(records[k]) && records[k].id in r.playlist.value.songIds;
        assert mapped[k] == s;
      }
    }
  }

  class PlaylistDetailViewModel {
    /** The navigation argument; 0 when it is missing. */
    const playlistId: int
    var ui: PlaylistDetailUiState

    /** The init block. */
    constructor (id: int)
      ensures playlistId == id && ui == Init(id)
    {
      playlistId := id;
      ui := InitialUi;
      new;
      if playlistId > 0 {
        LoadPlaylistDetails();
      } else {
        ui := ui.(error := Some(InvalidIdMessage));
      }
    }

    /** loadPlaylistDetails up to the two fetches. */
    method LoadPlaylistDetails()
      modifies this
      ensures ui == BeginLoad(old(ui))
    {
      ui := ui.(isLoading := true, error := None);
    }

    /** loadPlaylistDetails after both fetches returned. */
    method OnFetched(playlists: Result<seq<Playlist>>, songsApi: Result<seq<NetworkSong>>)
      modifies this
      ensures ui == CompleteLoad(old(ui), playlistId, playlists, songsApi)
    {
      if playlists.Failure? {
        ui := ui.(error := Some(PlaylistsErrorMessage), isLoading := false);
        return;
      }
      var playlist := FindPlaylist(playlists.value, playlistId);
      if playlist.None? {
        ui := ui.(error := Some(NotFoundMessage(playlistId)), isLoading := false);
        return;
      }
      var networkSongsResult := Repository.GetNetworkSongs(songsApi);
      if networkSongsResult.Failure? {
        ui := ui.(error := Some(SongsErrorMessage), isLoading := false);
        return;
      }
      var songsInPlaylist := SongsInPlaylist(networkSongsResult.value, playlist.value.songIds);
      ui := ui.(playlist := playlist, songs := songsInPlaylist, isLoading := false);
    }
  }
}

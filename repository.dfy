/** MusicRepository: turning the server's song records into playable songs, and the
    outcome logic of uploading a local song. The HTTP calls themselves are inputs: a
    fetch is the `Result` the API call produced, an upload is the `UploadOutcome` the
    file read and the server produced. */
module Repository {
  import opened Base
  import opened Models

  /** The server address songs are streamed from. */
  const BaseUrl: string := "http://192.168.56.1:5000/"
  /** The path under BaseUrl that serves audio files. */
  const AudioPath: string := "api/audio/"

  const NotLocalMessage: string := "La canción a subir debe ser un archivo local."
  const UnreadableMessage: string := "No se pudo leer el archivo local para subirlo."
  const RejectedPrefix: string := "Error al subir la canción: "

  /** The stream URL of a file on the server. */
  function StreamUrl(filePath: string): (url: string)
    ensures |url| == |BaseUrl + AudioPath| + |filePath|
    ensures url[..|BaseUrl + AudioPath|] == BaseUrl + AudioPath
  {
    BaseUrl + AudioPath + filePath
  }

  /** The server file a stream URL names, or None for a URL not built by StreamUrl. */
  function FilePathOf(url: string): Option<string>
  {
    var prefix := BaseUrl + AudioPath;
    if |prefix| <= |url| && url[..|prefix|] == prefix then Some(url[|prefix|..]) else None
  }

  /** A stream URL names exactly the file it was built from, so no two files share a URL. */
  lemma StreamUrlRoundTrip(filePath: string)
    ensures FilePathOf(StreamUrl(filePath)) == Some(filePath)
  {
    var prefix := BaseUrl + AudioPath;
    var url := StreamUrl(filePath);
    assert url == prefix + filePath;
    assert url[..|prefix|] == prefix;
    assert url[|prefix|..] == filePath;
  }

  /** The server record a network song was built from, or None for a song that has a
      local URI or no URL of this server. */
  function ToNetworkSong(s: Song): Option<NetworkSong>
  {
    if s.contentUri.None? && s.networkUrl.Some? && FilePathOf(s.networkUrl.value).Some? then
      Some(NetworkSong(s.id, s.title, s.artist, s.duration, FilePathOf(s.networkUrl.value).value))
    else None
  }

  /** A song built from a server record: a network song, no local URI, everything else
      copied, and its URL leads back to the record's file. */
  function ToSong(ns: NetworkSong): (s: Song)
    ensures s.id == ns.id && s.title == ns.title && s.artist == ns.artist && s.duration == ns.duration
    ensures s.contentUri == None && s.networkUrl.Some?
    ensures FilePathOf(s.networkUrl.value) == Some(ns.filePath)
    ensures ToNetworkSong(s) == Some(ns)
  {
    StreamUrlRoundTrip(ns.filePath);
    Song(ns.id, ns.title, ns.artist, ns.duration, None, Some(StreamUrl(ns.filePath)))
  }

  /** The `networkSongs.map { ... }` of getNetworkSongs: one song per record, in order. */
  function MapNetworkSongs(ns: seq<NetworkSong>): (r: seq<Song>)
    ensures |r| == |ns|
    ensures forall i :: 0 <= i < |r| ==> r[i] == ToSong(ns[i])
    decreases |ns|
  {
    if ns == [] then [] else [ToSong(ns[0])] + MapNetworkSongs(ns[1..])
  }

  /** Recovers the server records from a list of songs; None when one is not a network song. */
  function UnmapSongs(songs: seq<Song>): Option<seq<NetworkSong>>
    decreases |songs|
  {
    if songs == [] then Some([])
    else match (ToNetworkSong(songs[0]), UnmapSongs(songs[1..]))
      case (Some(n), Some(rest)) => Some([n] + rest)
      case _ => None
  }

  /** The mapped list determines the API list: nothing is dropped, added or reordered. */
  lemma {:induction false} MapNetworkSongsRoundTrip(ns: seq<NetworkSong>)
    ensures UnmapSongs(MapNetworkSongs(ns)) == Some(ns)
    decreases |ns|
  {
    if ns != [] {
      var m := MapNetworkSongs(ns);
      assert m[0] == ToSong(ns[0]);
      assert m[1..] == MapNetworkSongs(ns[1..]);
      MapNetworkSongsRoundTrip(ns[1..]);
      assert [ns[0]] + ns[1..] == ns;
    }
  }

  /** getNetworkSongs: the API's list mapped to songs, or its failure passed on. */
  function GetNetworkSongs(api: Result<seq<NetworkSong>>): (r: Result<seq<Song>>)
    ensures r.Ok? <==> api.Ok?
    ensures api.Failure? ==> r.message == api.message
    ensures api.Ok? ==> |r.value| == |api.value| && UnmapSongs(r.value) == Some(api.value)
    ensures api.Ok? ==> forall s :: s in r.value ==> s.contentUri.None? && s.networkUrl.Some?
  {
    match api
    case Failure(m) => Failure(m)
    case Ok(ns) =>
      MapNetworkSongsRoundTrip(ns);
      Ok(MapNetworkSongs(ns))
  }

  /** What happened after the local-URI check of uploadSong: the content resolver gave no
      stream, the server answered without success or without a body (with its message),
      the server answered with a record, or an exception was thrown (with its message). */
  datatype UploadOutcome =
    | Unreadable
    | Rejected(message: string)
    | Accepted(body: NetworkSong)
    | Raised(message: string)

  /** uploadSong. A song without a local URI fails before anything is read or sent. */
  function UploadSong(song: Song, outcome: UploadOutcome): (r: Result<Song>)
    ensures song.contentUri.None? ==> r == Failure(NotLocalMessage)
    ensures r.Ok? <==> song.contentUri.Some? && outcome.Accepted?
    ensures r.Ok? ==> r.value == ToSong(outcome.body) && ToNetworkSong(r.value) == Some(outcome.body)
    ensures song.contentUri.Some? && outcome.Unreadable? ==> r == Failure(UnreadableMessage)
    ensures song.contentUri.Some? && outcome.Rejected? ==> r == Failure(RejectedPrefix + outcome.message)
    ensures song.contentUri.Some? && outcome.Raised? ==> r == Failure(outcome.message)
  {
    if song.contentUri.None? then Failure(NotLocalMessage)
    else match outcome
      case Unreadable => Failure(UnreadableMessage)
      case Rejected(m) => Failure(RejectedPrefix + m)
      case Accepted(ns) => Ok(ToSong(ns))
      case Raised(m) => Failure(m)
  }
}

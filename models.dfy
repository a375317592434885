/** The app's data classes: a song (local or streamed), the server's song record
    and a playlist stored on the server. Kotlin `Long`/`Int` ids become `int`. */
module Models {
  import opened Base

  /** A playable song. A local song carries the content URI MediaStore gave it; a
      network song carries the URL it is streamed from. */
  datatype Song = Song(
    id: int,
    title: string,
    artist: string,
    duration: int,
    contentUri: Option<string>,
    networkUrl: Option<string>)

  /** A song as the server describes it; `filePath` is the file name on the server. */
  datatype NetworkSong = NetworkSong(
    id: int,
    title: string,
    artist: string,
    duration: int,
    filePath: string)

  datatype Playlist = Playlist(id: int, name: string, songIds: seq<int>)

  /** The pair the song lists are deduplicated by. */
  function TitleArtist(s: Song): (string, string)
  {
    (s.title, s.artist)
  }
}

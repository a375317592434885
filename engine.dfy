/** The Android MediaPlayer as the view models drive it, reduced to what they observe:
    where it reads from, whether it is preparing, prepared or released, whether it is
    playing, and the position it was last told to seek to. Its asynchronous
    "prepared" and "completed" notifications arrive as separate events. */
module PlaybackEngine {
  import opened Base
  import opened Models

  /** A data source: a stream URL (`setDataSource(url)`) or a local content URI
      (`setDataSource(context, uri)`). */
  datatype Locator = Remote(url: string) | Local(uri: string)

  /** The source the view models hand the engine: the network URL when the song has
      one, otherwise its content URI; None when it has neither. */
  function SourceOf(song: Song): (r: Option<Locator>)
    ensures r.None? <==> song.networkUrl.None? && song.contentUri.None?
    ensures r.Some? && r.value.Local? ==> song.networkUrl.None? && song.contentUri == Some(r.value.uri)
    ensures r.Some? && r.value.Remote? ==> song.networkUrl == Some(r.value.url)
  {
    if song.networkUrl.Some? then Some(Remote(song.networkUrl.value))
    else if song.contentUri.Some? then Some(Local(song.contentUri.value))
    else None
  }

  /** Idle: created, but setting its source or preparing it threw, so it never becomes
      prepared. Preparing: prepareAsync is under way. Prepared: ready to start (also after
      playback completed). Failed: the engine reported an error (its Error state).
      Released: release() was called. */
  datatype Phase = Idle | Preparing | Prepared | Failed | Released

  /** `startsWhenPrepared` is whether the prepared listener starts playback (playSong) or
      only records the duration (prepareSong). */
  datatype Engine = Engine(source: Option<Locator>, phase: Phase, playing: bool, position: int, startsWhenPrepared: bool)

  /** Only a prepared engine plays. */
  predicate Sane(e: Engine)
  {
    e.playing ==> e.phase == Prepared
  }

  /** A new engine whose source was set and whose preparation has begun. */
  function NewPreparing(source: Locator, startsWhenPrepared: bool): (e: Engine)
    ensures Sane(e) && e.phase == Preparing && !e.playing && e.source == Some(source)
  {
    Engine(Some(source), Preparing, false, 0, startsWhenPrepared)
  }

  /** A new engine whose setup threw: it never prepares. */
  function NewBroken(source: Option<Locator>, startsWhenPrepared: bool): (e: Engine)
    ensures Sane(e) && e.phase == Idle && !e.playing
  {
    Engine(source, Idle, false, 0, startsWhenPrepared)
  }

  function Release(e: Engine): (r: Engine)
    ensures Sane(r) && r.phase == Released && !r.playing && r.source == e.source
  {
    e.(phase := Released, playing := false)
  }

  /** `release()` on the engine if there is one (`mediaPlayer?.release()`). */
  function ReleaseIfAny(e: Option<Engine>): (r: Option<Engine>)
    ensures r.Some? <==> e.Some?
    ensures r.Some? ==> r.value == Release(e.value)
  {
    if e.Some? then Some(Release(e.value)) else None
  }

  function Pause(e: Engine): (r: Engine)
    ensures Sane(e) ==> Sane(r)
    ensures !r.playing && r.phase == e.phase && r.source == e.source
  {
    e.(playing := false)
  }

  /** start(): plays a prepared engine. Starting an engine in any other phase is an
      illegal-state error in MediaPlayer; the view models never do it (see
      PlayerState.Valid), and here it changes nothing. */
  function Start(e: Engine): (r: Engine)
    ensures Sane(e) ==> Sane(r)
    ensures e.phase == Prepared ==> r == e.(playing := true)
    ensures e.phase != Prepared ==> r == e
  {
    if e.phase == Prepared then e.(playing := true) else e
  }

  /** The prepared notification: a preparing engine becomes prepared and, when its
      listener says so, starts playing. */
  function OnPrepared(e: Engine): (r: Engine)
    requires e.phase == Preparing
    ensures Sane(r) && r.phase == Prepared && r.playing == e.startsWhenPrepared
    ensures r.source == e.source && r.position == e.position
  {
    e.(phase := Prepared, playing := e.startsWhenPrepared)
  }

  /** The completion notification: playback reached the end and stopped. */
  function OnCompleted(e: Engine): (r: Engine)
    ensures Sane(e) ==> Sane(r)
    ensures !r.playing && r.phase == e.phase
  {
    e.(playing := false)
  }

  /** Why the completion listener runs: playback reached the end, or the engine reported
      an error. The view models set no error listener, and a MediaPlayer without one
      calls the completion listener after every error. */
  datatype CompletionCause = PlaybackEnded | PlaybackError

  /** Which engines call their completion listener. The view models set that listener
      after prepareAsync, so an engine whose setup threw (Idle) has none; a released
      engine calls nothing. Playback ends only on a playing engine; an error can strike
      while preparing (a stream that cannot be opened) or once prepared. */
  predicate Completes(e: Engine, cause: CompletionCause)
  {
    match cause
    case PlaybackEnded => e.playing && e.phase == Prepared
    case PlaybackError => e.phase == Preparing || e.phase == Prepared
  }

  /** The engine as the completion listener finds it: stopped at the end, or in its error
      state. */
  function Complete(e: Engine, cause: CompletionCause): (r: Engine)
    ensures Sane(r) && !r.playing && r.source == e.source
    ensures cause == PlaybackEnded ==> r == OnCompleted(e) && r.phase == e.phase
    ensures cause == PlaybackError ==> r.phase == Failed
  {
    match cause
    case PlaybackEnded => OnCompleted(e)
    case PlaybackError => e.(phase := Failed, playing := false)
  }

  const TwoTo31: int := 0x8000_0000
  const TwoTo32: int := 0x1_0000_0000

  /** Kotlin's Long.toInt(): keeps the low 32 bits as a two's-complement Int. */
  function ToInt32(x: int): (r: int)
    ensures -TwoTo31 <= r < TwoTo31
    ensures (x - r) % TwoTo32 == 0
    ensures -TwoTo31 <= x < TwoTo31 ==> r == x
  {
    var m := x % TwoTo32;
    if m >= TwoTo31 then m - TwoTo32 else m
  }

  /** seekTo(position.toInt()). */
  function SeekTo(e: Engine, position: int): (r: Engine)
    ensures Sane(e) ==> Sane(r)
    ensures r.position == ToInt32(position) && r.phase == e.phase && r.playing == e.playing
  {
    e.(position := ToInt32(position))
  }
}

/**
 * `MPDPlayer`: the controller that sends playback commands to the server,
 * keeps a best-effort local copy of the player state and a pre-mute volume,
 * and tells its listeners what it did. The server connection is an oracle:
 * `send` answers a command with response lines or a failure, `status`
 * answers a status key with a value, no value (null) or a failure, and
 * `currentSong` is what a current-song query returns.
 */
module Player {
  import opened Wrappers
  import opened JavaLang
  import opened MpdStatus
  import opened Listeners
  import opened Songs

  /** The command names looked up in the connection's properties; their texts are configuration. */
  datatype CommandName =
    | PropCurrSong | PropNext | PropPause | PropPlay | PropPlayId | PropPrev
    | PropRepeat | PropRandom | PropConsume | PropSingle
    | PropSeek | PropSeekId | PropStop | PropSetVol | PropXFade

  /** An `MPDCommand`: a name and its parameters. */
  datatype Command = Command(name: CommandName, params: seq<string>)

  /** Why a call did not complete. */
  datatype Failure =
    | ServerError(message: string)       // MPDResponseException, rethrown as MPDPlayerException
    | ConnectionError(message: string)   // MPDConnectionException
    | NumberFormat                       // NumberFormatException escaping the method
    | NullPointer                        // NullPointerException escaping the method
    | IndexOutOfBounds                   // ArrayIndexOutOfBoundsException escaping the method
    | NoSongPlaying                      // seek with no song given and none playing

  datatype Connection = Connection(
    send: Command -> Result<seq<string>, Failure>,
    status: Key -> Result<Option<string>, Failure>,
    currentSong: Result<Option<Song>, Failure>)

  /** The `PlayerChangeEvent` ids the controller fires. */
  datatype PlayerChange =
    | PlayerStarted | PlayerSongSet | PlayerSeeking | PlayerStopped | PlayerPaused
    | PlayerNext | PlayerPrevious | PlayerMuted | PlayerUnmuted

  /** One fire call: a player-change event for `listeners`, or a volume event for `volListeners`. */
  datatype Notice = PlayerChanged(change: PlayerChange) | VolumeChanged(volume: int)

  /** `MPDAudioInfo` as filled by `getAudioDetails`. */
  datatype AudioInfo = AudioInfo(sampleRate: int, bits: int, channels: int)

  /** `makeCommand(command, params)`: a null parameter array gives a command with no parameters. */
  function MakeCommand(name: CommandName, params: Option<seq<string>>): (c: Command)
    ensures c.name == name
    ensures params.None? ==> c.params == []
    ensures params.Some? ==> c.params == params.value
  {
    match params
    case None => Command(name, [])
    case Some(p) => Command(name, p)
  }

  /** The command `playId` sends: plain play without a song, play-by-id with the song's id otherwise. */
  function PlayCommand(songId: Option<int>): Command
  {
    match songId
    case None => MakeCommand(PropPlay, None)
    case Some(i) => MakeCommand(PropPlayId, Some([IntToString(i)]))
  }

  /** Without a song the play command has no parameters; with one, its single parameter reads back as the id. */
  lemma PlayCommandParameters(songId: Option<int>)
    requires songId.Some? ==> IsInt(songId.value)
    ensures songId.None? ==> PlayCommand(songId) == Command(PropPlay, [])
    ensures songId.Some? ==> PlayCommand(songId).name == PropPlayId && |PlayCommand(songId).params| == 1
    ensures songId.Some? ==> ParseInt(PlayCommand(songId).params[0]) == Some(songId.value)
  {
    if songId.Some? {
      ParseIntToString(songId.value);
    }
  }

  /** The seek-by-id command for song `id` at `secs` seconds. */
  function SeekCommand(id: int, secs: int): Command
  {
    MakeCommand(PropSeekId, Some([IntToString(id), IntToString(secs)]))
  }

  /** The volume `setVolume` actually sends: `v` clamped into [0, 100]. */
  function Clamp(v: int): (r: int)
    ensures 0 <= r <= 100
    ensures 0 <= v <= 100 ==> r == v
    ensures v > 100 ==> r == 100
    ensures v < 0 ==> r == 0
  {
    if v > 100 then 100 else if v < 0 then 0 else v
  }

  /** The parameter a mode setter sends. */
  function ModeParam(on: bool): string
  {
    if on then "1" else "0"
  }

  /** What a mode getter makes of the status value: on exactly when it is "1". */
  predicate ModeFlag(value: Option<string>)
  {
    value == Some("1")
  }

  /** A mode getter reads back what the matching setter sent, and an absent value reads as off. */
  lemma ModeRoundTrip(on: bool)
    ensures ModeFlag(Some(ModeParam(on))) == on
    ensures !ModeFlag(None)
  {
  }

  /** `Integer.parseInt(mpd.getStatus(key))`: a null or malformed value throws NumberFormatException. */
  function StatusInt(conn: Connection, key: Key): (r: Result<int, Failure>)
    ensures conn.status(key).Failure? ==> r == Failure(conn.status(key).error)
    ensures conn.status(key).Success? ==>
      (r.Success? <==> conn.status(key).value.Some? && ParseInt(conn.status(key).value.value).Some?)
    ensures r.Success? ==> Some(r.value) == ParseInt(conn.status(key).value.value)
    ensures r.Failure? && conn.status(key).Success? ==> r.error == NumberFormat
  {
    match conn.status(key)
    case Failure(e) => Failure(e)
    case Success(None) => Failure(NumberFormat)
    case Success(Some(s)) =>
      match ParseInt(s)
      case None => Failure(NumberFormat)
      case Some(v) => Success(v)
  }

  /** `getVolume()`: the parsed volume; a null value throws NumberFormatException. */
  function GetVolume(conn: Connection): (r: Result<int, Failure>)
    ensures conn.status(Volume).Failure? ==> r == Failure(conn.status(Volume).error)
    ensures r.Success? ==>
      conn.status(Volume).Success? && conn.status(Volume).value.Some? && ParseInt(conn.status(Volume).value.value) == Some(r.value)
    ensures conn.status(Volume) == Success(None) ==> r == Failure(NumberFormat)
  {
    StatusInt(conn, Volume)
  }

  /** `getXFade()`: the parsed crossfade; a null value throws NumberFormatException. */
  function GetXFade(conn: Connection): (r: Result<int, Failure>)
    ensures conn.status(XFade).Failure? ==> r == Failure(conn.status(XFade).error)
    ensures r.Success? ==>
      conn.status(XFade).Success? && conn.status(XFade).value.Some? && ParseInt(conn.status(XFade).value.value) == Some(r.value)
    ensures conn.status(XFade) == Success(None) ==> r == Failure(NumberFormat)
  {
    StatusInt(conn, XFade)
  }

  /**
   * `getBitrate()` as written: the NullPointerException handler that returns
   * 0 never runs, because `Integer.parseInt(null)` throws
   * NumberFormatException, so an absent bitrate fails the call.
   */
  function GetBitrateAsWritten(conn: Connection): Result<int, Failure>
  {
    StatusInt(conn, Bitrate)
  }

  /** The absent bitrate escapes as a failure in the code as written. */
  lemma BitrateAbsentFails(conn: Connection)
    requires conn.status(Bitrate) == Success(None)
    ensures GetBitrateAsWritten(conn) == Failure(NumberFormat)
  {
  }

  /** `getBitrate()` as its null handler intends: an absent bitrate is 0. */
  function GetBitrate(conn: Connection): (r: Result<int, Failure>)
    ensures conn.status(Bitrate) == Success(None) ==> r == Success(0)
    ensures conn.status(Bitrate).Success? && conn.status(Bitrate).value.Some? ==> r == GetBitrateAsWritten(conn)
    ensures conn.status(Bitrate).Failure? ==> r == GetBitrateAsWritten(conn)
  {
    match conn.status(Bitrate)
    case Success(None) => Success(0)
    case _ => StatusInt(conn, Bitrate)
  }

  /** A mode getter: whether the status value of `key` is exactly "1". */
  function ModeStatus(conn: Connection, key: Key): (r: Result<bool, Failure>)
    ensures conn.status(key).Failure? ==> r == Failure(conn.status(key).error)
    ensures conn.status(key).Success? ==> r == Success(conn.status(key).value == Some("1"))
  {
    match conn.status(key)
    case Failure(e) => Failure(e)
    case Success(v) => Success(ModeFlag(v))
  }

  function IsRepeat(conn: Connection): (r: Result<bool, Failure>)
    ensures conn.status(Repeat).Failure? ==> r == Failure(conn.status(Repeat).error)
    ensures conn.status(Repeat).Success? ==> r == Success(conn.status(Repeat).value == Some("1"))
  {
    ModeStatus(conn, Repeat)
  }

  function IsSingleMode(conn: Connection): (r: Result<bool, Failure>)
    ensures conn.status(Single).Failure? ==> r == Failure(conn.status(Single).error)
    ensures conn.status(Single).Success? ==> r == Success(conn.status(Single).value == Some("1"))
  {
    ModeStatus(conn, Single)
  }

  function IsConsuming(conn: Connection): (r: Result<bool, Failure>)
    ensures conn.status(Consume).Failure? ==> r == Failure(conn.status(Consume).error)
    ensures conn.status(Consume).Success? ==> r == Success(conn.status(Consume).value == Some("1"))
  {
    ModeStatus(conn, Consume)
  }

  function IsRandom(conn: Connection): (r: Result<bool, Failure>)
    ensures conn.status(Random).Failure? ==> r == Failure(conn.status(Random).error)
    ensures conn.status(Random).Success? ==> r == Success(conn.status(Random).value == Some("1"))
  {
    ModeStatus(conn, Random)
  }

  /**
   * `getElapsedTime()`: the integer before the first ':' of the trimmed time
   * value; 0 when the value is absent (the NullPointerException from `trim`
   * is caught). A value that is all separators leaves no piece (index out
   * of bounds); anything else not a number throws NumberFormatException.
   */
  function ElapsedTime(conn: Connection): (r: Result<int, Failure>)
    ensures conn.status(Time).Failure? ==> r == Failure(conn.status(Time).error)
    ensures conn.status(Time) == Success(None) ==> r == Success(0)
    ensures conn.status(Time).Success? && conn.status(Time).value.Some? && r.Failure? ==>
      var t := Trim(conn.status(Time).value.value);
      || r.error == NumberFormat
      || (r.error == IndexOutOfBounds && |t| > 0 && t[0] == ':')
  {
    match conn.status(Time)
    case Failure(e) => Failure(e)
    case Success(None) => Success(0)
    case Success(Some(t)) =>
      var pieces := Split(Trim(t), ':');
      if |pieces| == 0 then
        SplitFirstPiece(Trim(t), ':');
        Failure(IndexOutOfBounds)
      else
        match ParseInt(pieces[0])
        case None => Failure(NumberFormat)
        case Some(v) => Success(v)
  }

  /** The elapsed time of a present value is the number before the first ':' of its trimmed form, when that is a number. */
  lemma ElapsedTimeBeforeColon(conn: Connection)
    requires conn.status(Time).Success? && conn.status(Time).value.Some?
    ensures ElapsedTime(conn).Success? <==> ParseInt(BeforeFirst(Trim(conn.status(Time).value.value), ':')).Some?
    ensures ElapsedTime(conn).Success? ==>
      Some(ElapsedTime(conn).value) == ParseInt(BeforeFirst(Trim(conn.status(Time).value.value), ':'))
  {
    var t := Trim(conn.status(Time).value.value);
    SplitFirstPiece(t, ':');
  }

  /** `field` is what `Integer.parseInt(piece)` returns, or -1 where it throws NumberFormatException. */
  predicate PartOrMinusOne(piece: string, field: int)
  {
    match ParseInt(piece)
    case Some(v) => field == v
    case None => field == -1
  }

  /** `Integer.parseInt(piece)`, with -1 where it throws NumberFormatException. */
  function IntOrMinusOne(piece: string): (r: int)
    ensures PartOrMinusOne(piece, r)
  {
    match ParseInt(piece)
    case None => -1
    case Some(v) => v
  }

  /**
   * `getAudioDetails()`: null when the audio value is absent; otherwise the
   * first three ':'-pieces, each a number or -1. `split` drops trailing
   * empty pieces, so fewer than three pieces make `split[i]` throw.
   */
  function AudioDetails(conn: Connection): (r: Result<Option<AudioInfo>, Failure>)
    ensures conn.status(Audio).Failure? ==> r == Failure(conn.status(Audio).error)
    ensures conn.status(Audio) == Success(None) ==> r == Success(None)
    ensures conn.status(Audio).Success? && conn.status(Audio).value.Some? ==>
      var pieces := Split(conn.status(Audio).value.value, ':');
      && (r.Failure? <==> |pieces| < 3)
      && (r.Failure? ==> r.error == IndexOutOfBounds)
      && (r.Success? ==> r.value.Some? && PartOrMinusOne(pieces[0], r.value.value.sampleRate)
                         && PartOrMinusOne(pieces[1], r.value.value.bits)
                         && PartOrMinusOne(pieces[2], r.value.value.channels))
  {
    match conn.status(Audio)
    case Failure(e) => Failure(e)
    case Success(None) => Success(None)
    case Success(Some(a)) =>
      var split := Split(a, ':');
      if |split| < 3 then Failure(IndexOutOfBounds)
      else Success(Some(AudioInfo(IntOrMinusOne(split[0]), IntOrMinusOne(split[1]), IntOrMinusOne(split[2]))))
  }

  /** A value `x:y:z` with a non-empty last part gives each part's number, or -1 for each part on its own. */
  lemma AudioDetailsOfTriple(conn: Connection, x: string, y: string, z: string)
    requires ':' !in x && ':' !in y && ':' !in z && z != []
    requires conn.status(Audio) == Success(Some(x + [':'] + y + [':'] + z))
    ensures AudioDetails(conn) == Success(Some(AudioInfo(IntOrMinusOne(x), IntOrMinusOne(y), IntOrMinusOne(z))))
  {
    SplitThree(x, y, z, ':');
  }

  /** A trailing empty part is dropped by `split`, so the call fails instead of giving -1 channels. */
  lemma AudioDetailsEmptyChannels(conn: Connection, x: string, y: string)
    requires ':' !in x && ':' !in y && y != []
    requires conn.status(Audio) == Success(Some(x + [':'] + y + [':']))
    ensures AudioDetails(conn) == Failure(IndexOutOfBounds)
  {
    SplitTrailingSeparator(x, y, ':');
  }

  /** `s` spells the upper-case word `upper` once every ASCII lower-case letter of `s` is raised. */
  predicate SpellsInUpperCase(s: string, upper: string)
  {
    |s| == |upper| && forall i :: 0 <= i < |s| ==> ToUpperAscii(s[i]) == upper[i]
  }

  /**
   * `getStatus()`: Playing for any capitalisation of "play", Paused for any
   * capitalisation of "pause", Stopped for every other word; a null state
   * throws from `equalsIgnoreCase`.
   */
  function GetStatus(conn: Connection): (r: Result<PlayerStatus, Failure>)
    ensures conn.status(State) == Success(None) ==> r == Failure(NullPointer)
    ensures conn.status(State).Failure? ==> r == Failure(conn.status(State).error)
    ensures conn.status(State).Success? && conn.status(State).value.Some? ==>
      var s := conn.status(State).value.value;
      && r.Success?
      && (r.value == StatusPlaying <==> SpellsInUpperCase(s, "PLAY"))
      && (r.value == StatusPaused <==> SpellsInUpperCase(s, "PAUSE"))
      && (r.value == StatusStopped <==> !SpellsInUpperCase(s, "PLAY") && !SpellsInUpperCase(s, "PAUSE"))
  {
    match conn.status(State)
    case Failure(e) => Failure(e)
    case Success(None) => Failure(NullPointer)
    case Success(Some(s)) =>
      if EqualsIgnoreCase(s, STATUS_PLAYING) then Success(StatusPlaying)
      else if EqualsIgnoreCase(s, STATUS_PAUSED) then Success(StatusPaused)
      else Success(StatusStopped)
  }

  /** The server's state words `MPD.STATUS_PLAYING` and `MPD.STATUS_PAUSED`. */
  const STATUS_PLAYING: string := "play"
  const STATUS_PAUSED: string := "pause"

  class MpdPlayer {
    var status: PlayerStatus
    var oldVolume: int
    var listeners: seq<ListenerId>
    var volListeners: seq<ListenerId>

    constructor ()
      ensures status == StatusStopped && oldVolume == 0 && listeners == [] && volListeners == []
    {
      status := StatusStopped;
      oldVolume := 0;
      listeners := [];
      volListeners := [];
    }

    method AddPlayerChangeListener(l: ListenerId)
      modifies this`listeners
      ensures listeners == old(listeners) + [l]
    {
      listeners := listeners + [l];
    }

    method RemovePlayerChangedListener(l: ListenerId)
      modifies this`listeners
      ensures listeners == RemoveFirst(old(listeners), l)
    {
      listeners := RemoveFirst(listeners, l);
    }

    method AddVolumeChangeListener(l: ListenerId)
      modifies this`volListeners
      ensures volListeners == old(volListeners) + [l]
    {
      volListeners := volListeners + [l];
    }

    method RemoveVolumeChangedListener(l: ListenerId)
      modifies this`volListeners
      ensures volListeners == RemoveFirst(old(volListeners), l)
    {
      volListeners := RemoveFirst(volListeners, l);
    }

    /**
     * The listener calls that the fire calls `fired` make, in order: a player
     * event goes to every player listener, a volume event to every volume
     * listener, each list in registration order.
     */
    function Deliveries(fired: seq<Notice>): seq<(ListenerId, Notice)>
      reads this
    {
      if fired == [] then []
      else
        var last := fired[|fired| - 1];
        Deliveries(fired[..|fired| - 1]) + Dispatch(if last.PlayerChanged? then listeners else volListeners, last)
    }

    /** Every player listener, in order, receives the event. */
    method FirePlayerChangeEvent(c: PlayerChange) returns (calls: seq<(ListenerId, Notice)>)
      ensures calls == Dispatch(listeners, PlayerChanged(c))
    {
      calls := Notify(listeners, PlayerChanged(c));
    }

    /** Every volume listener, in order, receives the event. */
    method FireVolumeChangeEvent(volume: int) returns (calls: seq<(ListenerId, Notice)>)
      ensures calls == Dispatch(volListeners, VolumeChanged(volume))
    {
      calls := Notify(volListeners, VolumeChanged(volume));
    }

    /**
     * `playId(song)`; `play()` is `playId(null)`. After a successful send a
     * Stopped or Paused player becomes Playing and STARTED fires; a Playing
     * one stays so and SONG_SET fires. A failed send changes nothing.
     */
    method PlayId(conn: Connection, song: Song?) returns (r: Outcome<Failure>, sent: seq<Command>, fired: seq<Notice>, calls: seq<(ListenerId, Notice)>)
      modifies this`status
      ensures sent == [PlayCommand(if song == null then None else Some(song.id))]
      ensures conn.send(sent[0]).Failure? ==>
        r == Fail(conn.send(sent[0]).error) && status == old(status) && fired == []
      ensures conn.send(sent[0]).Success? ==> r == Pass && status == StatusPlaying
      ensures conn.send(sent[0]).Success? && old(status) == StatusPlaying ==> fired == [PlayerChanged(PlayerSongSet)]
      ensures conn.send(sent[0]).Success? && old(status) != StatusPlaying ==> fired == [PlayerChanged(PlayerStarted)]
      ensures calls == Deliveries(fired)
    {
      var cmd := PlayCommand(if song == null then None else Some(song.id));
      sent := [cmd];
      var response := conn.send(cmd);
      if response.Failure? {
        return Fail(response.error), sent, [], [];
      }
      if status == StatusStopped || status == StatusPaused {
        status := StatusPlaying;
        fired := [PlayerChanged(PlayerStarted)];
        calls := FirePlayerChangeEvent(PlayerStarted);
      } else {
        fired := [PlayerChanged(PlayerSongSet)];
        calls := FirePlayerChangeEvent(PlayerSongSet);
      }
      r := Pass;
    }

    method Play(conn: Connection) returns (r: Outcome<Failure>, sent: seq<Command>, fired: seq<Notice>, calls: seq<(ListenerId, Notice)>)
      modifies this`status
      ensures sent == [Command(PropPlay, [])]
      ensures conn.send(sent[0]).Failure? ==>
        r == Fail(conn.send(sent[0]).error) && status == old(status) && fired == []
      ensures conn.send(sent[0]).Success? ==> r == Pass && status == StatusPlaying
      ensures conn.send(sent[0]).Success? ==>
        fired == [PlayerChanged(if old(status) == StatusPlaying then PlayerSongSet else PlayerStarted)]
      ensures calls == Deliveries(fired)
    {
      r, sent, fired, calls := PlayId(conn, null);
    }

    /**
     * `seekId(song, secs)`; `seek(secs)` is `seekId(null, secs)`. Without a
     * song the current song is asked for: none at all is an error; it is
     * sought only if its length is strictly greater than `secs`. An explicit
     * song is sought if its length is at least `secs`. SEEKING fires exactly
     * when a seek command was sent and answered.
     */
    method SeekId(conn: Connection, song: Song?, secs: int) returns (r: Outcome<Failure>, sent: seq<Command>, fired: seq<Notice>, calls: seq<(ListenerId, Notice)>)
      ensures song == null && conn.currentSong.Failure? ==> r == Fail(conn.currentSong.error) && sent == []
      ensures song == null && conn.currentSong == Success(None) ==> r == Fail(NoSongPlaying) && sent == []
      ensures song == null && conn.currentSong.Success? && conn.currentSong.value.Some? ==>
        var cur := conn.currentSong.value.value;
        sent == (if cur.length > secs then [SeekCommand(cur.id, secs)] else [])
      ensures song != null ==> sent == (if song.length >= secs then [SeekCommand(song.id, secs)] else [])
      ensures sent == [] && r.Pass? ==> fired == []
      ensures sent != [] && conn.send(sent[0]).Failure? ==> r == Fail(conn.send(sent[0]).error) && fired == []
      ensures sent != [] && conn.send(sent[0]).Success? ==> r == Pass && fired == [PlayerChanged(PlayerSeeking)]
      ensures r.Fail? ==> fired == []
      ensures calls == Deliveries(fired)
    {
      sent, fired := [], [];
      var target: Song;
      if song == null {
        if conn.currentSong.Failure? {
          return Fail(conn.currentSong.error), sent, fired, [];
        }
        if conn.currentSong.value.None? {
          return Fail(NoSongPlaying), sent, fired, [];
        }
        target := conn.currentSong.value.value;
        if !(target.length > secs) {
          return Pass, sent, fired, [];
        }
      } else {
        target := song;
        if !(target.length >= secs) {
          return Pass, sent, fired, [];
        }
      }
      var cmd := SeekCommand(target.id, secs);
      sent := [cmd];
      var response := conn.send(cmd);
      if response.Failure? {
        return Fail(response.error), sent, fired, [];
      }
      fired := [PlayerChanged(PlayerSeeking)];
      calls := FirePlayerChangeEvent(PlayerSeeking);
      r := Pass;
    }

    method Seek(conn: Connection, secs: int) returns (r: Outcome<Failure>, sent: seq<Command>, fired: seq<Notice>, calls: seq<(ListenerId, Notice)>)
      ensures conn.currentSong.Failure? ==> r == Fail(conn.currentSong.error) && sent == []
      ensures conn.currentSong == Success(None) ==> r == Fail(NoSongPlaying) && sent == []
      ensures conn.currentSong.Success? && conn.currentSong.value.Some? ==>
        var cur := conn.currentSong.value.value;
        sent == (if cur.length > secs then [SeekCommand(cur.id, secs)] else [])
      ensures sent != [] && conn.send(sent[0]).Success? ==> r == Pass && fired == [PlayerChanged(PlayerSeeking)]
      ensures r.Fail? || sent == [] ==> fired == []
      ensures calls == Deliveries(fired)
    {
      r, sent, fired, calls := SeekId(conn, null, secs);
    }

    /** `stop()`: after a successful send the local state is Stopped and STOPPED fires. */
    method Stop(conn: Connection) returns (r: Outcome<Failure>, sent: seq<Command>, fired: seq<Notice>, calls: seq<(ListenerId, Notice)>)
      modifies this`status
      ensures sent == [Command(PropStop, [])]
      ensures conn.send(sent[0]).Failure? ==>
        r == Fail(conn.send(sent[0]).error) && status == old(status) && fired == []
      ensures conn.send(sent[0]).Success? ==>
        r == Pass && status == StatusStopped && fired == [PlayerChanged(PlayerStopped)]
      ensures calls == Deliveries(fired)
    {
      sent := [MakeCommand(PropStop, None)];
      var response := conn.send(sent[0]);
      if response.Failure? {
        return Fail(response.error), sent, [], [];
      }
      status := StatusStopped;
      r, fired := Pass, [PlayerChanged(PlayerStopped)];
      calls := FirePlayerChangeEvent(PlayerStopped);
    }

    /** `pause()`: after a successful send the local state is Paused and PAUSED fires. */
    method Pause(conn: Connection) returns (r: Outcome<Failure>, sent: seq<Command>, fired: seq<Notice>, calls: seq<(ListenerId, Notice)>)
      modifies this`status
      ensures sent == [Command(PropPause, [])]
      ensures conn.send(sent[0]).Failure? ==>
        r == Fail(conn.send(sent[0]).error) && status == old(status) && fired == []
      ensures conn.send(sent[0]).Success? ==>
        r == Pass && status == StatusPaused && fired == [PlayerChanged(PlayerPaused)]
      ensures calls == Deliveries(fired)
    {
      sent := [MakeCommand(PropPause, None)];
      var response := conn.send(sent[0]);
      if response.Failure? {
        return Fail(response.error), sent, [], [];
      }
      status := StatusPaused;
      r, fired := Pass, [PlayerChanged(PlayerPaused)];
      calls := FirePlayerChangeEvent(PlayerPaused);
    }

    /** `playNext()`: NEXT fires after a successful send; the local state is not touched. */
    method PlayNext(conn: Connection) returns (r: Outcome<Failure>, sent: seq<Command>, fired: seq<Notice>, calls: seq<(ListenerId, Notice)>)
      ensures sent == [Command(PropNext, [])]
      ensures conn.send(sent[0]).Failure? ==> r == Fail(conn.send(sent[0]).error) && fired == []
      ensures conn.send(sent[0]).Success? ==> r == Pass && fired == [PlayerChanged(PlayerNext)]
      ensures calls == Deliveries(fired)
    {
      sent := [MakeCommand(PropNext, None)];
      var response := conn.send(sent[0]);
      if response.Failure? {
        return Fail(response.error), sent, [], [];
      }
      r, fired := Pass, [PlayerChanged(PlayerNext)];
      calls := FirePlayerChangeEvent(PlayerNext);
    }

    /** `playPrev()`: PREVIOUS fires after a successful send; the local state is not touched. */
    method PlayPrev(conn: Connection) returns (r: Outcome<Failure>, sent: seq<Command>, fired: seq<Notice>, calls: seq<(ListenerId, Notice)>)
      ensures sent == [Command(PropPrev, [])]
      ensures conn.send(sent[0]).Failure? ==> r == Fail(conn.send(sent[0]).error) && fired == []
      ensures conn.send(sent[0]).Success? ==> r == Pass && fired == [PlayerChanged(PlayerPrevious)]
      ensures calls == Deliveries(fired)
    {
      sent := [MakeCommand(PropPrev, None)];
      var response := conn.send(sent[0]);
      if response.Failure? {
        return Fail(response.error), sent, [], [];
      }
      r, fired := Pass, [PlayerChanged(PlayerPrevious)];
      calls := FirePlayerChangeEvent(PlayerPrevious);
    }

    /**
     * `setVolume(volume)`: the value is clamped into [0, 100] first; the
     * volume event carries the clamped value and fires only after a
     * successful send.
     */
    method SetVolume(conn: Connection, volume: int) returns (r: Outcome<Failure>, sent: seq<Command>, fired: seq<Notice>, calls: seq<(ListenerId, Notice)>)
      ensures sent == [Command(PropSetVol, [IntToString(Clamp(volume))])]
      ensures conn.send(sent[0]).Failure? ==> r == Fail(conn.send(sent[0]).error) && fired == []
      ensures conn.send(sent[0]).Success? ==> r == Pass && fired == [VolumeChanged(Clamp(volume))]
      ensures calls == Deliveries(fired)
    {
      var volume := volume;
      if volume > 100 {
        volume := 100;
      } else if volume < 0 {
        volume := 0;
      }
      sent := [MakeCommand(PropSetVol, Some([IntToString(volume)]))];
      var response := conn.send(sent[0]);
      if response.Failure? {
        return Fail(response.error), sent, [], [];
      }
      r, fired := Pass, [VolumeChanged(volume)];
      calls := FireVolumeChangeEvent(volume);
    }

    /**
     * `mute()`: the live volume is read and cached (before anything is
     * sent), then the volume is set to 0 and MUTED fires.
     */
    method Mute(conn: Connection) returns (r: Outcome<Failure>, sent: seq<Command>, fired: seq<Notice>, calls: seq<(ListenerId, Notice)>)
      modifies this`oldVolume
      ensures GetVolume(conn).Failure? ==>
        r == Fail(GetVolume(conn).error) && sent == [] && fired == [] && oldVolume == old(oldVolume)
      ensures GetVolume(conn).Success? ==> oldVolume == GetVolume(conn).value
      ensures GetVolume(conn).Success? ==> sent == [Command(PropSetVol, [IntToString(0)])]
      ensures GetVolume(conn).Success? && conn.send(sent[0]).Failure? ==>
        r == Fail(conn.send(sent[0]).error) && fired == []
      ensures GetVolume(conn).Success? && conn.send(sent[0]).Success? ==>
        r == Pass && fired == [VolumeChanged(0), PlayerChanged(PlayerMuted)]
      ensures calls == Deliveries(fired)
    {
      var live := GetVolume(conn);
      if live.Failure? {
        return Fail(live.error), [], [], [];
      }
      oldVolume := live.value;
      r, sent, fired, calls := SetVolume(conn, 0);
      if r.Pass? {
        fired := fired + [PlayerChanged(PlayerMuted)];
        var more := FirePlayerChangeEvent(PlayerMuted);
        calls := calls + more;
      }
    }

    /** `unMute()`: the cached pre-mute volume is set again (clamped) and UNMUTED fires. */
    method UnMute(conn: Connection) returns (r: Outcome<Failure>, sent: seq<Command>, fired: seq<Notice>, calls: seq<(ListenerId, Notice)>)
      ensures sent == [Command(PropSetVol, [IntToString(Clamp(oldVolume))])]
      ensures conn.send(sent[0]).Failure? ==> r == Fail(conn.send(sent[0]).error) && fired == []
      ensures conn.send(sent[0]).Success? ==>
        r == Pass && fired == [VolumeChanged(Clamp(oldVolume)), PlayerChanged(PlayerUnmuted)]
      ensures calls == Deliveries(fired)
    {
      r, sent, fired, calls := SetVolume(conn, oldVolume);
      if r.Pass? {
        fired := fired + [PlayerChanged(PlayerUnmuted)];
        var more := FirePlayerChangeEvent(PlayerUnmuted);
        calls := calls + more;
      }
    }

    /** A mode setter: sends `name` with "1" for on and "0" for off; nothing fires. */
    method SetMode(conn: Connection, name: CommandName, on: bool) returns (r: Outcome<Failure>, sent: seq<Command>)
      ensures sent == [Command(name, [ModeParam(on)])]
      ensures r == if conn.send(sent[0]).Failure? then Fail(conn.send(sent[0]).error) else Pass
    {
      var param;
      if on {
        param := "1";
      } else {
        param := "0";
      }
      sent := [MakeCommand(name, Some([param]))];
      var response := conn.send(sent[0]);
      r := if response.Failure? then Fail(response.error) else Pass;
    }

    method SetRepeat(conn: Connection, shouldRepeat: bool) returns (r: Outcome<Failure>, sent: seq<Command>)
      ensures sent == [Command(PropRepeat, [ModeParam(shouldRepeat)])]
      ensures r == if conn.send(sent[0]).Failure? then Fail(conn.send(sent[0]).error) else Pass
    {
      r, sent := SetMode(conn, PropRepeat, shouldRepeat);
    }

    method SetSingleMode(conn: Connection, singleMode: bool) returns (r: Outcome<Failure>, sent: seq<Command>)
      ensures sent == [Command(PropSingle, [ModeParam(singleMode)])]
      ensures r == if conn.send(sent[0]).Failure? then Fail(conn.send(sent[0]).error) else Pass
    {
      r, sent := SetMode(conn, PropSingle, singleMode);
    }

    method SetConsuming(conn: Connection, consuming: bool) returns (r: Outcome<Failure>, sent: seq<Command>)
      ensures sent == [Command(PropConsume, [ModeParam(consuming)])]
      ensures r == if conn.send(sent[0]).Failure? then Fail(conn.send(sent[0]).error) else Pass
    {
      r, sent := SetMode(conn, PropConsume, consuming);
    }

    method SetRandom(conn: Connection, shouldRandom: bool) returns (r: Outcome<Failure>, sent: seq<Command>)
      ensures sent == [Command(PropRandom, [ModeParam(shouldRandom)])]
      ensures r == if conn.send(sent[0]).Failure? then Fail(conn.send(sent[0]).error) else Pass
    {
      r, sent := SetMode(conn, PropRandom, shouldRandom);
    }

    /** `randomizePlay()` is `setRandom(true)`. */
    method RandomizePlay(conn: Connection) returns (r: Outcome<Failure>, sent: seq<Command>)
      ensures sent == [Command(PropRandom, ["1"])]
      ensures r == if conn.send(sent[0]).Failure? then Fail(conn.send(sent[0]).error) else Pass
    {
      r, sent := SetRandom(conn, true);
    }

    /** `unRandomizePlay()` is `setRandom(false)`. */
    method UnRandomizePlay(conn: Connection) returns (r: Outcome<Failure>, sent: seq<Command>)
      ensures sent == [Command(PropRandom, ["0"])]
      ensures r == if conn.send(sent[0]).Failure? then Fail(conn.send(sent[0]).error) else Pass
    {
      r, sent := SetRandom(conn, false);
    }

    /** `setXFade(xFade)` sends the crossfade command with the number. */
    method SetXFade(conn: Connection, xFade: int) returns (r: Outcome<Failure>, sent: seq<Command>)
      ensures sent == [Command(PropXFade, [IntToString(xFade)])]
      ensures r == if conn.send(sent[0]).Failure? then Fail(conn.send(sent[0]).error) else Pass
    {
      sent := [MakeCommand(PropXFade, Some([IntToString(xFade)]))];
      var response := conn.send(sent[0]);
      r := if response.Failure? then Fail(response.error) else Pass;
    }
  }
}

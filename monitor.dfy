/**
 * `MPDStandAloneMonitor` as a class: the fields it caches between polls, its
 * five listener lists, and the methods of one polling tick. Every method that
 * changes the cache is proved against a function of MonitorSpec: the four
 * mode checks against `ModeCheck`, `FireTransition` against `Transition`,
 * `CheckOutputs` against `OutputsCheck`, `MapStatus` against `MapState`,
 * and `ApplyEntry`, `ProcessResponse`, `CheckError`, `CheckPlayer`,
 * `CheckPlaylist`, `CheckVolume`, `CheckBitrate`, `Tick` and `Run` against
 * the function of the same name. Every method that fires returns the fire
 * calls it made and the listener calls they led to.
 */
module Monitor {
  import opened Wrappers
  import opened JavaLang
  import opened MpdStatus
  import opened Listeners
  import opened PlayerBasicEvents
  import opened MonitorSpec

  class StandAloneMonitor {
    const delay: int
    var stopped: bool
    /**
     * The 21 fields the Java class keeps between polls (`oldVolume`,
     * `newVolume`, ..., `status`, `outputMap`), held as one record so that an
     * assignment `oldX = newX` is the record update `cache.(oldX := cache.newX)`.
     */
    var cache: Baseline
    var playerListeners: seq<ListenerId>
    var playlistListeners: seq<ListenerId>
    var volListeners: seq<ListenerId>
    var errorListeners: seq<ListenerId>
    var outputListeners: seq<ListenerId>

    /** The listener lists as one value. */
    function Registered(): Registry
      reads this
    {
      Registry(playerListeners, playlistListeners, volListeners, errorListeners, outputListeners)
    }

    /**
     * The constructor with a delay: empty listener lists, then the initial
     * status readout and output list, `None` for a query that threw (the
     * exception is caught and the rest of the loading skipped).
     */
    constructor (delay: int, response: Option<seq<(Key, string)>>, outputs: Option<seq<Output>>)
      requires response.Some? ==> WellFormed(response.value)
      ensures this.delay == delay
      ensures cache == Initial(response, outputs)
      ensures Registered() == Registry([], [], [], [], [])
      ensures !stopped
    {
      this.delay := delay;
      cache := INITIAL;
      stopped := false;
      playerListeners, playlistListeners, volListeners, errorListeners, outputListeners := [], [], [], [], [];
      new;
      if response.Some? {
        var _, _ := ProcessResponse(response.value);
        if outputs.Some? {
          LoadOutputs(outputs.value);
        }
      }
    }

    // ------------------------------------------------------------ listeners

    method AddPlayerChangeListener(pcl: ListenerId)
      modifies this`playerListeners
      ensures playerListeners == old(playerListeners) + [pcl]
    {
      playerListeners := playerListeners + [pcl];
    }

    method RemovePlayerChangeListener(pcl: ListenerId)
      modifies this`playerListeners
      ensures playerListeners == RemoveFirst(old(playerListeners), pcl)
    {
      playerListeners := RemoveFirst(playerListeners, pcl);
    }

    method AddVolumeChangeListener(vcl: ListenerId)
      modifies this`volListeners
      ensures volListeners == old(volListeners) + [vcl]
    {
      volListeners := volListeners + [vcl];
    }

    method RemoveVolumeChangedListener(vcl: ListenerId)
      modifies this`volListeners
      ensures volListeners == RemoveFirst(old(volListeners), vcl)
    {
      volListeners := RemoveFirst(volListeners, vcl);
    }

    method AddOutputChangeListener(ocl: ListenerId)
      modifies this`outputListeners
      ensures outputListeners == old(outputListeners) + [ocl]
    {
      outputListeners := outputListeners + [ocl];
    }

    method RemoveOutputChangedListener(ocl: ListenerId)
      modifies this`outputListeners
      ensures outputListeners == RemoveFirst(old(outputListeners), ocl)
    {
      outputListeners := RemoveFirst(outputListeners, ocl);
    }

    method AddPlaylistChangeListener(pcl: ListenerId)
      modifies this`playlistListeners
      ensures playlistListeners == old(playlistListeners) + [pcl]
    {
      playlistListeners := playlistListeners + [pcl];
    }

    method RemovePlaylistStatusChangedListener(pcl: ListenerId)
      modifies this`playlistListeners
      ensures playlistListeners == RemoveFirst(old(playlistListeners), pcl)
    {
      playlistListeners := RemoveFirst(playlistListeners, pcl);
    }

    method AddMPDErrorListener(el: ListenerId)
      modifies this`errorListeners
      ensures errorListeners == old(errorListeners) + [el]
    {
      errorListeners := errorListeners + [el];
    }

    method RemoveMPDErrorListener(el: ListenerId)
      modifies this`errorListeners
      ensures errorListeners == RemoveFirst(old(errorListeners), el)
    {
      errorListeners := RemoveFirst(errorListeners, el);
    }

    // ------------------------------------------------------------ fire methods

    method FirePlayerChangeEvent(id: int) returns (calls: seq<(ListenerId, Event)>)
      ensures calls == Delivered(Registered(), [PlayerEvent(id)])
    {
      calls := Notify(playerListeners, PlayerEvent(id));
      DeliveredSingle(Registered(), PlayerEvent(id));
    }

    method FireVolumeChangeEvent(volume: int) returns (calls: seq<(ListenerId, Event)>)
      ensures calls == Delivered(Registered(), [VolumeEvent(volume)])
    {
      calls := Notify(volListeners, VolumeEvent(volume));
      DeliveredSingle(Registered(), VolumeEvent(volume));
    }

    method FireOutputChangeEvent(kind: OutputChange, subject: Option<Output>) returns (calls: seq<(ListenerId, Event)>)
      ensures calls == Delivered(Registered(), [OutputEvent(kind, subject)])
    {
      calls := Notify(outputListeners, OutputEvent(kind, subject));
      DeliveredSingle(Registered(), OutputEvent(kind, subject));
    }

    method FirePlaylistChangeEvent(change: PlaylistChange) returns (calls: seq<(ListenerId, Event)>)
      ensures calls == Delivered(Registered(), [PlaylistEvent(change)])
    {
      calls := Notify(playlistListeners, PlaylistEvent(change));
      DeliveredSingle(Registered(), PlaylistEvent(change));
    }

    method FireMPDErrorEvent(msg: string) returns (calls: seq<(ListenerId, Event)>)
      ensures calls == Delivered(Registered(), [ErrorEvent(msg)])
    {
      calls := Notify(errorListeners, ErrorEvent(msg));
      DeliveredSingle(Registered(), ErrorEvent(msg));
    }

    // ------------------------------------------------------------ the response walk

    method CheckRepeat(repeat: int) returns (fired: seq<Event>, calls: seq<(ListenerId, Event)>)
      modifies this`cache
      ensures cache == old(cache).(oldRepeat := cache.oldRepeat)
      ensures (cache.oldRepeat, fired) == ModeCheck(playerListeners != [], old(cache.oldRepeat), repeat, PLAYER_REPEAT_ON, PLAYER_REPEAT_OFF)
      ensures calls == Delivered(Registered(), fired)
    {
      fired, calls := [], [];
      if playerListeners == [] {
        return;
      }
      if repeat != cache.oldRepeat {
        var id := if repeat == 1 then PLAYER_REPEAT_ON else PLAYER_REPEAT_OFF;
        calls := FirePlayerChangeEvent(id);
        fired := [PlayerEvent(id)];
        cache := cache.(oldRepeat := repeat);
      }
    }

    method CheckRandom(random: int) returns (fired: seq<Event>, calls: seq<(ListenerId, Event)>)
      modifies this`cache
      ensures cache == old(cache).(oldRandom := cache.oldRandom)
      ensures (cache.oldRandom, fired) == ModeCheck(playerListeners != [], old(cache.oldRandom), random, PLAYER_RANDOM_ON, PLAYER_RANDOM_OFF)
      ensures calls == Delivered(Registered(), fired)
    {
      fired, calls := [], [];
      if playerListeners == [] {
        return;
      }
      if random != cache.oldRandom {
        var id := if random == 1 then PLAYER_RANDOM_ON else PLAYER_RANDOM_OFF;
        calls := FirePlayerChangeEvent(id);
        fired := [PlayerEvent(id)];
        cache := cache.(oldRandom := random);
      }
    }

    method CheckSingleMode(singleMode: int) returns (fired: seq<Event>, calls: seq<(ListenerId, Event)>)
      modifies this`cache
      ensures cache == old(cache).(oldSingleMode := cache.oldSingleMode)
      ensures (cache.oldSingleMode, fired) == ModeCheck(playerListeners != [], old(cache.oldSingleMode), singleMode, PLAYER_SINGLE_ON, PLAYER_SINGLE_OFF)
      ensures calls == Delivered(Registered(), fired)
    {
      fired, calls := [], [];
      if playerListeners == [] {
        return;
      }
      if singleMode != cache.oldSingleMode {
        var id := if singleMode == 1 then PLAYER_SINGLE_ON else PLAYER_SINGLE_OFF;
        calls := FirePlayerChangeEvent(id);
        fired := [PlayerEvent(id)];
        cache := cache.(oldSingleMode := singleMode);
      }
    }

    method CheckConsume(consuming: int) returns (fired: seq<Event>, calls: seq<(ListenerId, Event)>)
      modifies this`cache
      ensures cache == old(cache).(oldConsume := cache.oldConsume)
      ensures (cache.oldConsume, fired) == ModeCheck(playerListeners != [], old(cache.oldConsume), consuming, PLAYER_CONSUME_ON, PLAYER_CONSUME_OFF)
      ensures calls == Delivered(Registered(), fired)
    {
      fired, calls := [], [];
      if playerListeners == [] {
        return;
      }
      if consuming != cache.oldConsume {
        var id := if consuming == 1 then PLAYER_CONSUME_ON else PLAYER_CONSUME_OFF;
        calls := FirePlayerChangeEvent(id);
        fired := [PlayerEvent(id)];
        cache := cache.(oldConsume := consuming);
      }
    }

    /** The body of the `processResponse` loop for one entry. */
    method ApplyEntry(key: Key, value: string) returns (fired: seq<Event>, calls: seq<(ListenerId, Event)>)
      requires EntryWellFormed(key, value)
      modifies this`cache
      ensures Step(cache, fired) == MonitorSpec.ApplyEntry(old(cache), playerListeners != [], key, value)
      ensures calls == Delivered(Registered(), fired)
    {
      fired, calls := [], [];
      match key
      case Volume => cache := cache.(newVolume := ParseInt(value).value);
      case Repeat => fired, calls := CheckRepeat(ParseInt(value).value);
      case Random => fired, calls := CheckRandom(ParseInt(value).value);
      case Consume => fired, calls := CheckConsume(ParseInt(value).value);
      case Single => fired, calls := CheckSingleMode(ParseInt(value).value);
      case Playlist => cache := cache.(newPlaylistVersion := ParseInt(value).value);
      case PlaylistLength => cache := cache.(newPlaylistLength := ParseInt(value).value);
      case State => cache := cache.(state := Some(value));
      case CurrentSong => cache := cache.(newSong := ParseInt(value).value);
      case CurrentSongId => cache := cache.(newSongId := ParseInt(value).value);
      case Time => cache := cache.(elapsedTime := ParseLong(Split(value, ':')[0]).value);
      case Bitrate => cache := cache.(newBitrate := ParseInt(value).value);
      case Error => cache := cache.(error := Some(value));
      case _ =>
    }

    /** `processResponse(response)`: reset the song position, song id and error, then walk the entries in order. */
    method ProcessResponse(response: seq<(Key, string)>) returns (fired: seq<Event>, calls: seq<(ListenerId, Event)>)
      requires WellFormed(response)
      modifies this`cache
      ensures Step(cache, fired) == MonitorSpec.ProcessResponse(old(cache), playerListeners != [], response)
      ensures calls == Delivered(Registered(), fired)
    {
      cache := cache.(newSongId := -1);
      cache := cache.(newSong := -1);
      cache := cache.(error := None);
      ghost var start := cache;
      fired, calls := [], [];
      for i := 0 to |response|
        invariant Step(cache, fired) == Walk(start, playerListeners != [], response[..i])
        invariant calls == Delivered(Registered(), fired)
      {
        assert response[..i + 1][..i] == response[..i];
        var f, c := ApplyEntry(response[i].0, response[i].1);
        DeliveredAppend(Registered(), fired, f);
        fired, calls := fired + f, calls + c;
      }
      assert response[..|response|] == response;
    }

    // ------------------------------------------------------------ the checks

    method CheckError() returns (fired: seq<Event>, calls: seq<(ListenerId, Event)>)
      ensures Step(cache, fired) == MonitorSpec.CheckError(cache)
      ensures calls == Delivered(Registered(), fired)
    {
      fired, calls := [], [];
      if cache.error.Some? {
        calls := FireMPDErrorEvent(cache.error.value);
        fired := [ErrorEvent(cache.error.value)];
      }
    }

    /** The state word's meaning, as the if-chain at the head of `checkPlayer()` computes it. */
    static method MapStatus(state: string) returns (newStatus: PlayerStatus)
      ensures newStatus == MapState(state)
    {
      newStatus := StatusStopped;
      if StartsWith(state, RESPONSE_PLAY) {
        newStatus := StatusPlaying;
      } else if StartsWith(state, RESPONSE_PAUSE) {
        newStatus := StatusPaused;
      } else if StartsWith(state, RESPONSE_STOP) {
        newStatus := StatusStopped;
      }
    }

    /** The switch of `checkPlayer()`, run when the new state differs from the cached one. */
    method FireTransition(newStatus: PlayerStatus) returns (fired: seq<Event>, calls: seq<(ListenerId, Event)>)
      modifies this`cache
      ensures Step(cache, fired) == Transition(old(cache), newStatus)
      ensures calls == Delivered(Registered(), fired)
    {
      fired, calls := [], [];
      match newStatus {
        case StatusPlaying =>
          match cache.status {
            case StatusPaused =>
              calls := FirePlayerChangeEvent(PLAYER_UNPAUSED);
              fired := [PlayerEvent(PLAYER_UNPAUSED)];
            case StatusStopped =>
              calls := FirePlayerChangeEvent(PLAYER_STARTED);
              fired := [PlayerEvent(PLAYER_STARTED)];
            case StatusPlaying =>
          }
        case StatusStopped =>
          cache := cache.(elapsedTime := 0);
          calls := FirePlayerChangeEvent(PLAYER_STOPPED);
          fired := [PlayerEvent(PLAYER_STOPPED)];
          if cache.newSongId == -1 {
            var c := FirePlaylistChangeEvent(PlaylistEnded);
            DeliveredAppend(Registered(), fired, [PlaylistEvent(PlaylistEnded)]);
            fired, calls := fired + [PlaylistEvent(PlaylistEnded)], calls + c;
          }
        case StatusPaused =>
          match cache.status {
            case StatusPaused =>
              calls := FirePlayerChangeEvent(PLAYER_UNPAUSED);
              fired := [PlayerEvent(PLAYER_UNPAUSED)];
            case StatusPlaying =>
              calls := FirePlayerChangeEvent(PLAYER_PAUSED);
              fired := [PlayerEvent(PLAYER_PAUSED)];
            case StatusStopped =>
          }
      }
    }

    method CheckPlayer() returns (fired: seq<Event>, calls: seq<(ListenerId, Event)>)
      requires cache.state.Some?
      modifies this`cache
      ensures Step(cache, fired) == MonitorSpec.CheckPlayer(old(cache))
      ensures calls == Delivered(Registered(), fired)
    {
      var newStatus := MapStatus(cache.state.value);
      fired, calls := [], [];
      if cache.status != newStatus {
        fired, calls := FireTransition(newStatus);
        cache := cache.(status := newStatus);
      }
    }

    method CheckPlaylist() returns (fired: seq<Event>, calls: seq<(ListenerId, Event)>)
      modifies this`cache
      ensures Step(cache, fired) == MonitorSpec.CheckPlaylist(old(cache), playlistListeners != [])
      ensures calls == Delivered(Registered(), fired)
    {
      fired, calls := [], [];
      if playlistListeners == [] {
        return;
      }
      var version, versionCalls := [], [];
      if cache.oldPlaylistVersion != cache.newPlaylistVersion {
        versionCalls := FirePlaylistChangeEvent(PlaylistChanged);
        version := [PlaylistEvent(PlaylistChanged)];
        cache := cache.(oldPlaylistVersion := cache.newPlaylistVersion);
      }
      ghost var afterVersion := cache;
      assert Step(afterVersion, version) == VersionCheck(old(cache));
      var length, lengthCalls := [], [];
      if cache.oldPlaylistLength != cache.newPlaylistLength {
        var change := PlaylistChanged;
        if cache.oldPlaylistLength < cache.newPlaylistLength {
          change := SongAdded;
        } else if cache.oldPlaylistLength > cache.newPlaylistLength {
          change := SongDeleted;
        }
        lengthCalls := FirePlaylistChangeEvent(change);
        length := [PlaylistEvent(change)];
        cache := cache.(oldPlaylistLength := cache.newPlaylistLength);
      }
      ghost var afterLength := cache;
      assert Step(afterLength, length) == LengthCheck(afterVersion);
      var song, songCalls := [], [];
      if cache.status == StatusPlaying {
        if cache.oldSong != cache.newSong {
          songCalls := FirePlaylistChangeEvent(SongChanged);
          song := [PlaylistEvent(SongChanged)];
          cache := cache.(oldSong := cache.newSong);
        } else if cache.oldSongId != cache.newSongId {
          songCalls := FirePlaylistChangeEvent(SongChanged);
          song := [PlaylistEvent(SongChanged)];
          cache := cache.(oldSongId := cache.newSongId);
        }
      }
      assert Step(cache, song) == SongCheck(afterLength);
      DeliveredAppend(Registered(), version, length);
      DeliveredAppend(Registered(), version + length, song);
      fired, calls := version + length + song, versionCalls + lengthCalls + songCalls;
    }

    method CheckVolume() returns (fired: seq<Event>, calls: seq<(ListenerId, Event)>)
      modifies this`cache
      ensures Step(cache, fired) == MonitorSpec.CheckVolume(old(cache), volListeners != [])
      ensures calls == Delivered(Registered(), fired)
    {
      fired, calls := [], [];
      if volListeners == [] {
        return;
      }
      if cache.oldVolume != cache.newVolume {
        calls := FireVolumeChangeEvent(cache.newVolume);
        fired := [VolumeEvent(cache.newVolume)];
        cache := cache.(oldVolume := cache.newVolume);
      }
    }

    method CheckBitrate() returns (fired: seq<Event>, calls: seq<(ListenerId, Event)>)
      modifies this`cache
      ensures Step(cache, fired) == MonitorSpec.CheckBitrate(old(cache), playerListeners != [])
      ensures calls == Delivered(Registered(), fired)
    {
      fired, calls := [], [];
      if playerListeners == [] {
        return;
      }
      if cache.oldBitrate != cache.newBitrate {
        calls := FirePlayerChangeEvent(PLAYER_BITRATE_CHANGE);
        fired := [PlayerEvent(PLAYER_BITRATE_CHANGE)];
        cache := cache.(oldBitrate := cache.newBitrate);
      }
    }

    /** `loadOutputs(outputs)`: clear the map, then put each output under its id. */
    method LoadOutputs(outputs: seq<Output>)
      modifies this`cache
      ensures cache == old(cache).(outputMap := OutputMapOf(outputs))
    {
      cache := cache.(outputMap := map[]);
      for i := 0 to |outputs|
        invariant cache == old(cache).(outputMap := OutputMapOf(outputs[..i]))
      {
        assert outputs[..i + 1][..i] == outputs[..i];
        cache := cache.(outputMap := cache.outputMap[outputs[i].id := outputs[i]]);
      }
      assert outputs[..|outputs|] == outputs;
    }

    /** `checkOutputs()`, with `outputs` the answer of the output query, `None` when it threw. */
    method CheckOutputs(outputs: Option<seq<Output>>)
      returns (fired: seq<Event>, calls: seq<(ListenerId, Event)>, outcome: Outcome<Fault>)
      modifies this`cache
      ensures TickResult(cache, fired, outcome) == OutputsCheck(old(cache), outputListeners != [], outputs)
      ensures calls == Delivered(Registered(), fired)
    {
      fired, calls, outcome := [], [], Pass;
      if outputListeners == [] {
        return;
      }
      if outputs.None? {
        outcome := Fail(OutputsUnavailable);
        return;
      }
      var list := outputs.value;
      if |list| > |cache.outputMap| {
        calls := FireOutputChangeEvent(OutputAdded, None);
        fired := [OutputEvent(OutputAdded, None)];
        LoadOutputs(list);
      } else if |list| < |cache.outputMap| {
        calls := FireOutputChangeEvent(OutputDeleted, None);
        fired := [OutputEvent(OutputDeleted, None)];
        LoadOutputs(list);
      } else {
        for i := 0 to |list|
          invariant FirstChanged(list, cache.outputMap) == FirstChanged(list[i..], cache.outputMap)
          invariant cache.outputMap == old(cache.outputMap) && fired == [] && calls == []
        {
          var out := list[i];
          assert list[i..][1..] == list[i + 1..];
          if out.id !in cache.outputMap || cache.outputMap[out.id].enabled != out.enabled {
            calls := FireOutputChangeEvent(OutputChanged, Some(out));
            fired := [OutputEvent(OutputChanged, Some(out))];
            LoadOutputs(list);
            return;
          }
        }
      }
    }

    // ------------------------------------------------------------ polling

    /**
     * One iteration of `run` after a successful status query: the walk,
     * then `checkError`, `checkPlayer`, `checkPlaylist`, `checkVolume`,
     * `checkBitrate` and `checkOutputs`. A null state ends the tick where
     * `checkPlayer` dereferences it.
     */
    method Tick(response: seq<(Key, string)>, outputs: Option<seq<Output>>)
      returns (fired: seq<Event>, calls: seq<(ListenerId, Event)>, outcome: Outcome<Fault>)
      requires WellFormed(response)
      modifies this
      ensures TickResult(cache, fired, outcome) == MonitorSpec.Tick(old(cache), old(Registered()), response, outputs)
      ensures Registered() == old(Registered()) && stopped == old(stopped)
      ensures calls == Delivered(Registered(), fired)
    {
      var p, pc := ProcessResponse(response);
      ghost var afterWalk := cache;
      var e, ec := CheckError();
      DeliveredAppend(Registered(), p, e);
      fired, calls := p + e, pc + ec;
      if cache.state.None? {
        outcome := Fail(NullState);
        return;
      }
      var pl, plc := CheckPlayer();
      var ls, lsc := CheckPlaylist();
      var v, vc := CheckVolume();
      var br, brc := CheckBitrate();
      var o, oc, out := CheckOutputs(outputs);
      var rest := pl + ls + v + br + o;
      assert TickResult(cache, rest, out) == RunChecks(afterWalk, Registered(), outputs);
      DeliveredAppend(Registered(), pl, ls);
      DeliveredAppend(Registered(), pl + ls, v);
      DeliveredAppend(Registered(), pl + ls + v, br);
      DeliveredAppend(Registered(), pl + ls + v + br, o);
      DeliveredAppend(Registered(), fired, rest);
      fired, calls := fired + rest, calls + (plc + lsc + vc + brc + oc);
      outcome := out;
    }

    /**
     * `run()` over a sequence of polls, while the monitor is not stopped: a
     * failed status query skips its tick, and a null state ends the loop.
     */
    method Run(polls: seq<Poll>) returns (fired: seq<Event>, calls: seq<(ListenerId, Event)>, crashed: bool)
      requires PollsWellFormed(polls)
      modifies this
      ensures Registered() == old(Registered()) && stopped == old(stopped)
      ensures old(stopped) ==> fired == [] && !crashed && cache == old(cache)
      ensures !old(stopped) ==> RunResult(cache, fired, crashed) == MonitorSpec.Run(old(cache), old(Registered()), polls)
      ensures calls == Delivered(Registered(), fired)
    {
      fired, calls, crashed := [], [], false;
      if stopped {
        return;
      }
      ghost var whole := MonitorSpec.Run(cache, Registered(), polls);
      assert polls[0..] == polls;
      assert whole == Resume(fired, MonitorSpec.Run(cache, Registered(), polls[0..]));
      for i := 0 to |polls|
        invariant Registered() == old(Registered()) && !stopped
        invariant crashed ==> whole == RunResult(cache, fired, true)
        invariant !crashed ==> whole == Resume(fired, MonitorSpec.Run(cache, Registered(), polls[i..]))
        invariant calls == Delivered(Registered(), fired)
      {
        if crashed {
          break;
        }
        RunCons(cache, Registered(), polls, i);
        if polls[i].0.Some? {
          var f, c, o := Tick(polls[i].0.value, polls[i].1);
          DeliveredAppend(Registered(), fired, f);
          if o != Fail(NullState) {
            ResumeTwice(fired, f, MonitorSpec.Run(cache, Registered(), polls[i + 1..]));
          }
          fired, calls := fired + f, calls + c;
          crashed := o == Fail(NullState);
        }
      }
      if !crashed {
        assert polls[|polls|..] == [];
        assert fired + [] == fired;
      }
    }

    method Stop()
      modifies this`stopped
      ensures stopped
    {
      stopped := true;
    }

    method IsStopped() returns (r: bool)
      ensures r == stopped
    {
      r := stopped;
    }

    method GetStatus() returns (r: PlayerStatus)
      ensures r == cache.status
    {
      r := cache.status;
    }
  }
}

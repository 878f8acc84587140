/**
 * The change detector of `MPDStandAloneMonitor`, stated as functions on its
 * cached state. A tick walks the status readout (`processResponse`), then
 * runs `checkError`, `checkPlayer`, `checkPlaylist`, `checkVolume`,
 * `checkBitrate` and `checkOutputs` in that order. Each function returns
 * the new cached state and the events fired, one per fire call, in order.
 */
module MonitorSpec {
  import opened Wrappers
  import opened JavaLang
  import opened MpdStatus
  import opened Listeners
  import opened PlayerBasicEvents

  /** An `MPDOutput`: an audio output of the server. */
  datatype Output = Output(id: int, name: string, enabled: bool)

  /** The `PlaylistBasicChangeEvent` ids. */
  datatype PlaylistChange = PlaylistChanged | SongAdded | SongDeleted | SongChanged | PlaylistEnded

  /** The `OutputChangeEvent.OUTPUT_EVENT` kinds. */
  datatype OutputChange = OutputAdded | OutputDeleted | OutputChanged

  /**
   * One fire call. A player event carries a `PlayerBasicChangeEvent` id and
   * no message. An output event's source is the monitor for ADDED and
   * DELETED (`subject == None`) and the output itself for CHANGED.
   */
  datatype Event =
    | PlayerEvent(id: int)
    | PlaylistEvent(change: PlaylistChange)
    | VolumeEvent(volume: int)
    | ErrorEvent(message: string)
    | OutputEvent(kind: OutputChange, subject: Option<Output>)

  /** The registered listeners, one list per category. */
  datatype Registry = Registry(
    player: seq<ListenerId>, playlist: seq<ListenerId>, volume: seq<ListenerId>,
    error: seq<ListenerId>, output: seq<ListenerId>)

  /** The listeners a fire call for `e` reaches, in the order they are called. */
  function Deliveries(reg: Registry, e: Event): seq<(ListenerId, Event)>
  {
    match e
    case PlayerEvent(_) => Dispatch(reg.player, e)
    case PlaylistEvent(_) => Dispatch(reg.playlist, e)
    case VolumeEvent(_) => Dispatch(reg.volume, e)
    case ErrorEvent(_) => Dispatch(reg.error, e)
    case OutputEvent(_, _) => Dispatch(reg.output, e)
  }

  predicate IsModeEvent(e: Event) { e.PlayerEvent? && IsModeId(e.id) }

  /** The events the checks after `checkError` may fire: neither mode-flag nor error events. */
  predicate IsCheckEvent(e: Event) { !IsModeEvent(e) && !e.ErrorEvent? }

  /** The monitor's fields apart from the listener lists and the stop flag. */
  datatype Baseline = Baseline(
    newVolume: int, oldVolume: int,
    newPlaylistVersion: int, oldPlaylistVersion: int,
    newPlaylistLength: int, oldPlaylistLength: int,
    oldSong: int, newSong: int, oldSongId: int, newSongId: int,
    oldBitrate: int, newBitrate: int,
    elapsedTime: int,
    state: Option<string>, error: Option<string>,
    oldRepeat: int, oldRandom: int, oldSingleMode: int, oldConsume: int,
    status: PlayerStatus,
    outputMap: map<int, Output>)

  /** Java's defaults: every number 0, both strings null, Stopped, an empty output map. */
  const INITIAL: Baseline :=
    Baseline(0, 0, 0, 0, 0, 0, 0, 0, 0, 0, 0, 0, 0, None, None, 0, 0, 0, 0, StatusStopped, map[])

  datatype Step = Step(next: Baseline, events: seq<Event>)

  const RESPONSE_PLAY: string := "play"
  const RESPONSE_STOP: string := "stop"
  const RESPONSE_PAUSE: string := "pause"

  // ---------------------------------------------------------------- the response walk

  /** The entries whose values `processResponse` parses parse: `int` keys as ints, the time's first piece as a long. */
  predicate EntryWellFormed(key: Key, value: string)
  {
    match key
    case Volume => ParseInt(value).Some?
    case Repeat => ParseInt(value).Some?
    case Random => ParseInt(value).Some?
    case Consume => ParseInt(value).Some?
    case Single => ParseInt(value).Some?
    case Playlist => ParseInt(value).Some?
    case PlaylistLength => ParseInt(value).Some?
    case CurrentSong => ParseInt(value).Some?
    case CurrentSongId => ParseInt(value).Some?
    case Bitrate => ParseInt(value).Some?
    case Time => |Split(value, ':')| > 0 && ParseLong(Split(value, ':')[0]).Some?
    case _ => true
  }

  predicate WellFormed(response: seq<(Key, string)>)
  {
    forall i :: 0 <= i < |response| ==> EntryWellFormed(response[i].0, response[i].1)
  }

  /** `checkRepeat` and its siblings: with listeners, a change fires ON for 1 and OFF otherwise, and is cached. */
  function ModeCheck(gate: bool, cached: int, value: int, onId: int, offId: int): (r: (int, seq<Event>))
    ensures !gate ==> r == (cached, [])
    ensures gate ==> r.0 == value
    ensures gate ==> (r.1 != [] <==> value != cached)
    ensures r.1 != [] ==> r.1 == [PlayerEvent(if value == 1 then onId else offId)]
  {
    if !gate then (cached, [])
    else if value != cached then (value, [PlayerEvent(if value == 1 then onId else offId)])
    else (cached, [])
  }

  /** One iteration of the `processResponse` loop; `gate` says whether player listeners exist. */
  function ApplyEntry(b: Baseline, gate: bool, key: Key, value: string): Step
    requires EntryWellFormed(key, value)
  {
    match key
    case Volume => Step(b.(newVolume := ParseInt(value).value), [])
    case Repeat =>
      var m := ModeCheck(gate, b.oldRepeat, ParseInt(value).value, PLAYER_REPEAT_ON, PLAYER_REPEAT_OFF);
      Step(b.(oldRepeat := m.0), m.1)
    case Random =>
      var m := ModeCheck(gate, b.oldRandom, ParseInt(value).value, PLAYER_RANDOM_ON, PLAYER_RANDOM_OFF);
      Step(b.(oldRandom := m.0), m.1)
    case Consume =>
      var m := ModeCheck(gate, b.oldConsume, ParseInt(value).value, PLAYER_CONSUME_ON, PLAYER_CONSUME_OFF);
      Step(b.(oldConsume := m.0), m.1)
    case Single =>
      var m := ModeCheck(gate, b.oldSingleMode, ParseInt(value).value, PLAYER_SINGLE_ON, PLAYER_SINGLE_OFF);
      Step(b.(oldSingleMode := m.0), m.1)
    case Playlist => Step(b.(newPlaylistVersion := ParseInt(value).value), [])
    case PlaylistLength => Step(b.(newPlaylistLength := ParseInt(value).value), [])
    case State => Step(b.(state := Some(value)), [])
    case CurrentSong => Step(b.(newSong := ParseInt(value).value), [])
    case CurrentSongId => Step(b.(newSongId := ParseInt(value).value), [])
    case Time => Step(b.(elapsedTime := ParseLong(Split(value, ':')[0]).value), [])
    case Bitrate => Step(b.(newBitrate := ParseInt(value).value), [])
    case Error => Step(b.(error := Some(value)), [])
    case _ => Step(b, [])
  }

  /** The loop over the entries, in iteration order. */
  function Walk(b: Baseline, gate: bool, response: seq<(Key, string)>): Step
    requires WellFormed(response)
  {
    if response == [] then Step(b, [])
    else
      var n := |response| - 1;
      var prev := Walk(b, gate, response[..n]);
      var last := ApplyEntry(prev.next, gate, response[n].0, response[n].1);
      Step(last.next, prev.events + last.events)
  }

  /** `processResponse(response)`: reset the song position, song id and error, then walk. */
  function ProcessResponse(b: Baseline, gate: bool, response: seq<(Key, string)>): Step
    requires WellFormed(response)
  {
    Walk(b.(newSongId := -1, newSong := -1, error := None), gate, response)
  }

  /** The position of the last entry for `key`, or -1. */
  function LastIndex(response: seq<(Key, string)>, key: Key): (i: int)
    ensures -1 <= i < |response|
    ensures i >= 0 ==> response[i].0 == key
    ensures forall j :: i < j < |response| ==> response[j].0 != key
  {
    if response == [] then -1
    else if response[|response| - 1].0 == key then |response| - 1
    else LastIndex(response[..|response| - 1], key)
  }

  /** The value of the last entry for `key`, if any. */
  function LastValue(response: seq<(Key, string)>, key: Key): Option<string>
  {
    var i := LastIndex(response, key);
    if i < 0 then None else Some(response[i].1)
  }

  /** The parsed last value of an `int` key, or `otherwise` when the key is absent. */
  function IntField(response: seq<(Key, string)>, key: Key, otherwise: int): int
    requires WellFormed(response)
    requires key in {Volume, Repeat, Random, Consume, Single, Playlist, PlaylistLength, CurrentSong, CurrentSongId, Bitrate}
  {
    var i := LastIndex(response, key);
    if i < 0 then otherwise else ParseInt(response[i].1).value
  }

  /** The parsed last time value, or `otherwise` when the key is absent. */
  function TimeField(response: seq<(Key, string)>, otherwise: int): int
    requires WellFormed(response)
  {
    var i := LastIndex(response, Time);
    if i < 0 then otherwise else ParseLong(Split(response[i].1, ':')[0]).value
  }

  /** Appending an entry makes it the last one for its key and leaves the other keys alone. */
  lemma LastIndexSnoc(s: seq<(Key, string)>, e: (Key, string), k: Key)
    ensures LastIndex(s + [e], k) == if e.0 == k then |s| else LastIndex(s, k)
  {
    assert (s + [e])[..|s|] == s;
  }

  /** The `int` fields the walk fills straight from a key. */
  datatype Slot = NewVolume | NewPlaylistVersion | NewPlaylistLength | NewSong | NewSongId | NewBitrate

  /** The mode caches the walk updates through `checkRepeat` and its siblings. */
  datatype ModeSlot = CachedRepeat | CachedRandom | CachedSingleMode | CachedConsume

  function SlotKey(f: Slot): Key
  {
    match f
    case NewVolume => Volume
    case NewPlaylistVersion => Playlist
    case NewPlaylistLength => PlaylistLength
    case NewSong => CurrentSong
    case NewSongId => CurrentSongId
    case NewBitrate => Bitrate
  }

  function SlotValue(b: Baseline, f: Slot): int
  {
    match f
    case NewVolume => b.newVolume
    case NewPlaylistVersion => b.newPlaylistVersion
    case NewPlaylistLength => b.newPlaylistLength
    case NewSong => b.newSong
    case NewSongId => b.newSongId
    case NewBitrate => b.newBitrate
  }

  function ModeKey(f: ModeSlot): Key
  {
    match f
    case CachedRepeat => Repeat
    case CachedRandom => Random
    case CachedSingleMode => Single
    case CachedConsume => Consume
  }

  function ModeValue(b: Baseline, f: ModeSlot): int
  {
    match f
    case CachedRepeat => b.oldRepeat
    case CachedRandom => b.oldRandom
    case CachedSingleMode => b.oldSingleMode
    case CachedConsume => b.oldConsume
  }

  /** The fields the walk never writes. */
  function Untouched(b: Baseline): (int, int, int, int, int, int, PlayerStatus, map<int, Output>)
  {
    (b.oldVolume, b.oldPlaylistVersion, b.oldPlaylistLength, b.oldSong, b.oldSongId, b.oldBitrate, b.status, b.outputMap)
  }

  /** One entry writes the slot of its own key and no other. */
  lemma ApplyEntrySlot(b: Baseline, gate: bool, key: Key, value: string, f: Slot)
    requires EntryWellFormed(key, value)
    ensures SlotValue(ApplyEntry(b, gate, key, value).next, f) ==
      if key == SlotKey(f) then ParseInt(value).value else SlotValue(b, f)
  {
  }

  /** One entry moves its own mode cache to its value, when player listeners exist, and no other. */
  lemma ApplyEntryMode(b: Baseline, gate: bool, key: Key, value: string, f: ModeSlot)
    requires EntryWellFormed(key, value)
    ensures ModeValue(ApplyEntry(b, gate, key, value).next, f) ==
      if key == ModeKey(f) && gate then ParseInt(value).value else ModeValue(b, f)
  {
  }

  /** One entry writes the elapsed time, state or error only for its own key, and never an untouched field. */
  lemma ApplyEntryOthers(b: Baseline, gate: bool, key: Key, value: string)
    requires EntryWellFormed(key, value)
    ensures var r := ApplyEntry(b, gate, key, value).next;
      r.elapsedTime == (if key == Time then ParseLong(Split(value, ':')[0]).value else b.elapsedTime) &&
      r.state == (if key == State then Some(value) else b.state) &&
      r.error == (if key == Error then Some(value) else b.error) &&
      Untouched(r) == Untouched(b)
  {
  }

  lemma {:induction false} WalkSlot(b: Baseline, gate: bool, response: seq<(Key, string)>, f: Slot)
    requires WellFormed(response)
    ensures SlotValue(Walk(b, gate, response).next, f) == IntField(response, SlotKey(f), SlotValue(b, f))
  {
    if response != [] {
      var n := |response| - 1;
      var s := response[..n];
      assert response == s + [response[n]];
      WalkSlot(b, gate, s, f);
      LastIndexSnoc(s, response[n], SlotKey(f));
      ApplyEntrySlot(Walk(b, gate, s).next, gate, response[n].0, response[n].1, f);
    }
  }

  lemma {:induction false} WalkMode(b: Baseline, gate: bool, response: seq<(Key, string)>, f: ModeSlot)
    requires WellFormed(response)
    ensures ModeValue(Walk(b, gate, response).next, f) ==
      if gate then IntField(response, ModeKey(f), ModeValue(b, f)) else ModeValue(b, f)
  {
    if response != [] {
      var n := |response| - 1;
      var s := response[..n];
      assert response == s + [response[n]];
      WalkMode(b, gate, s, f);
      LastIndexSnoc(s, response[n], ModeKey(f));
      ApplyEntryMode(Walk(b, gate, s).next, gate, response[n].0, response[n].1, f);
    }
  }

  lemma {:induction false} WalkTime(b: Baseline, gate: bool, response: seq<(Key, string)>)
    requires WellFormed(response)
    ensures Walk(b, gate, response).next.elapsedTime == TimeField(response, b.elapsedTime)
  {
    if response != [] {
      var n := |response| - 1;
      var s := response[..n];
      assert response == s + [response[n]];
      WalkTime(b, gate, s);
      LastIndexSnoc(s, response[n], Time);
      ApplyEntryOthers(Walk(b, gate, s).next, gate, response[n].0, response[n].1);
    }
  }

  lemma {:induction false} WalkTexts(b: Baseline, gate: bool, response: seq<(Key, string)>)
    requires WellFormed(response)
    ensures var r := Walk(b, gate, response).next;
      r.state == (if LastValue(response, State).Some? then LastValue(response, State) else b.state) &&
      r.error == (if LastValue(response, Error).Some? then LastValue(response, Error) else b.error)
  {
    if response != [] {
      var n := |response| - 1;
      var s := response[..n];
      assert response == s + [response[n]];
      WalkTexts(b, gate, s);
      LastIndexSnoc(s, response[n], State);
      LastIndexSnoc(s, response[n], Error);
      ApplyEntryOthers(Walk(b, gate, s).next, gate, response[n].0, response[n].1);
    }
  }

  lemma {:induction false} WalkUntouched(b: Baseline, gate: bool, response: seq<(Key, string)>)
    requires WellFormed(response)
    ensures Untouched(Walk(b, gate, response).next) == Untouched(b)
  {
    if response != [] {
      var n := |response| - 1;
      var s := response[..n];
      assert response == s + [response[n]];
      WalkUntouched(b, gate, s);
      ApplyEntryOthers(Walk(b, gate, s).next, gate, response[n].0, response[n].1);
    }
  }

  /**
   * After `processResponse` each number fed by the readout holds its key's
   * last value, or keeps its old value when the key is absent, except that
   * the song position and id fall back to -1.
   */
  lemma ProcessResponseCounters(b: Baseline, gate: bool, response: seq<(Key, string)>)
    requires WellFormed(response)
    ensures var r := ProcessResponse(b, gate, response).next;
      r.newVolume == IntField(response, Volume, b.newVolume) &&
      r.newPlaylistVersion == IntField(response, Playlist, b.newPlaylistVersion) &&
      r.newPlaylistLength == IntField(response, PlaylistLength, b.newPlaylistLength) &&
      r.newSong == IntField(response, CurrentSong, -1) &&
      r.newSongId == IntField(response, CurrentSongId, -1) &&
      r.newBitrate == IntField(response, Bitrate, b.newBitrate)
  {
    var b' := b.(newSongId := -1, newSong := -1, error := None);
    WalkSlot(b', gate, response, NewVolume);
    WalkSlot(b', gate, response, NewPlaylistVersion);
    WalkSlot(b', gate, response, NewPlaylistLength);
    WalkSlot(b', gate, response, NewSong);
    WalkSlot(b', gate, response, NewSongId);
    WalkSlot(b', gate, response, NewBitrate);
  }

  /** The mode caches follow their keys' last values only when player listeners exist. */
  lemma ProcessResponseModes(b: Baseline, gate: bool, response: seq<(Key, string)>)
    requires WellFormed(response)
    ensures var r := ProcessResponse(b, gate, response).next;
      r.oldRepeat == (if gate then IntField(response, Repeat, b.oldRepeat) else b.oldRepeat) &&
      r.oldRandom == (if gate then IntField(response, Random, b.oldRandom) else b.oldRandom) &&
      r.oldSingleMode == (if gate then IntField(response, Single, b.oldSingleMode) else b.oldSingleMode) &&
      r.oldConsume == (if gate then IntField(response, Consume, b.oldConsume) else b.oldConsume)
  {
    var b' := b.(newSongId := -1, newSong := -1, error := None);
    WalkMode(b', gate, response, CachedRepeat);
    WalkMode(b', gate, response, CachedRandom);
    WalkMode(b', gate, response, CachedSingleMode);
    WalkMode(b', gate, response, CachedConsume);
  }

  /**
   * The elapsed time and the state follow their last entries or keep their
   * values; the error is the last error entry, null when there is none;
   * the old baselines, the status and the output map are untouched.
   */
  lemma ProcessResponseRest(b: Baseline, gate: bool, response: seq<(Key, string)>)
    requires WellFormed(response)
    ensures var r := ProcessResponse(b, gate, response).next;
      r.elapsedTime == TimeField(response, b.elapsedTime) &&
      r.state == (if LastValue(response, State).Some? then LastValue(response, State) else b.state) &&
      r.error == LastValue(response, Error) &&
      r.oldVolume == b.oldVolume && r.oldPlaylistVersion == b.oldPlaylistVersion &&
      r.oldPlaylistLength == b.oldPlaylistLength && r.oldSong == b.oldSong &&
      r.oldSongId == b.oldSongId && r.oldBitrate == b.oldBitrate &&
      r.status == b.status && r.outputMap == b.outputMap
  {
    WalkTime(b.(newSongId := -1, newSong := -1, error := None), gate, response);
    WalkTexts(b.(newSongId := -1, newSong := -1, error := None), gate, response);
    WalkUntouched(b.(newSongId := -1, newSong := -1, error := None), gate, response);
  }

  /** Without player listeners the walk fires nothing; every event it does fire is a mode event. */
  lemma {:induction false} WalkEvents(b: Baseline, gate: bool, response: seq<(Key, string)>)
    requires WellFormed(response)
    ensures !gate ==> Walk(b, gate, response).events == []
    ensures forall e :: e in Walk(b, gate, response).events ==> IsModeEvent(e)
  {
    if response != [] {
      WalkEvents(b, gate, response[..|response| - 1]);
    }
  }

  /**
   * A single repeat entry with player listeners: it fires exactly when the
   * value differs from the cache, REPEAT_ON exactly for 1, and the cache
   * takes the value.
   */
  lemma RepeatEntry(b: Baseline, value: string)
    requires ParseInt(value).Some?
    ensures var s := ProcessResponse(b, true, [(Repeat, value)]);
      var v := ParseInt(value).value;
      s.next.oldRepeat == v &&
      (s.events != [] <==> v != b.oldRepeat) &&
      (s.events != [] ==> s.events == [PlayerEvent(if v == 1 then PLAYER_REPEAT_ON else PLAYER_REPEAT_OFF)])
  {
    var r := [(Repeat, value)];
    assert r[..0] == [];
    var b' := b.(newSongId := -1, newSong := -1, error := None);
    assert Walk(b', true, r[..0]) == Step(b', []);
  }

  // ---------------------------------------------------------------- the checks

  /** `checkError()`: the error of this readout, every tick it is present. */
  function CheckError(b: Baseline): Step
  {
    Step(b, if b.error.Some? then [ErrorEvent(b.error.value)] else [])
  }

  /** The state word's meaning: "play..." is Playing, "pause..." Paused, anything else (including "stop...") Stopped. */
  function MapState(state: string): PlayerStatus
  {
    if StartsWith(state, RESPONSE_PLAY) then StatusPlaying
    else if StartsWith(state, RESPONSE_PAUSE) then StatusPaused
    else if StartsWith(state, RESPONSE_STOP) then StatusStopped
    else StatusStopped
  }

  /**
   * `checkPlayer()`: on a change of the mapped state, the nested switch on
   * the new and the old state; the Paused-to-Paused arm inside the switch
   * cannot be reached under the outer guard. `state` must be non-null.
   */
  function CheckPlayer(b: Baseline): (s: Step)
    requires b.state.Some?
    ensures s.next.status == MapState(b.state.value)
    ensures s.next == b.(status := s.next.status, elapsedTime := s.next.elapsedTime)
    ensures MapState(b.state.value) == b.status ==> s == Step(b, [])
    ensures forall e :: e in s.events ==> IsCheckEvent(e)
  {
    var newStatus := MapState(b.state.value);
    if b.status == newStatus then Step(b, [])
    else
      var s := Transition(b, newStatus);
      Step(s.next.(status := newStatus), s.events)
  }

  /**
   * The switch of `checkPlayer()` on the new and the cached state, before
   * the status is updated; only entering Stopped touches the elapsed time.
   */
  function Transition(b: Baseline, newStatus: PlayerStatus): (s: Step)
    ensures s.next == b.(elapsedTime := s.next.elapsedTime)
    ensures forall e :: e in s.events ==> IsCheckEvent(e)
  {
    match newStatus
    case StatusPlaying =>
      Step(b, match b.status
        case StatusPaused => [PlayerEvent(PLAYER_UNPAUSED)]
        case StatusStopped => [PlayerEvent(PLAYER_STARTED)]
        case StatusPlaying => [])
    case StatusStopped =>
      Step(b.(elapsedTime := 0),
        [PlayerEvent(PLAYER_STOPPED)] + if b.newSongId == -1 then [PlaylistEvent(PlaylistEnded)] else [])
    case StatusPaused =>
      Step(b, match b.status
        case StatusPaused => [PlayerEvent(PLAYER_UNPAUSED)]
        case StatusPlaying => [PlayerEvent(PLAYER_PAUSED)]
        case StatusStopped => [])
  }

  /** The state a readout word leads to: "play" and "pause" by prefix, Stopped otherwise. */
  lemma MapStatePrefixes(w: string)
    ensures StartsWith(w, "play") ==> MapState(w) == StatusPlaying
    ensures !StartsWith(w, "play") && StartsWith(w, "pause") ==> MapState(w) == StatusPaused
    ensures !StartsWith(w, "play") && !StartsWith(w, "pause") ==> MapState(w) == StatusStopped
    ensures MapState("playing") == StatusPlaying && MapState("paused") == StatusPaused
    ensures MapState("stop") == StatusStopped && MapState("") == StatusStopped
  {
    assert StartsWith("playing", "play");
    assert "paused"[..4][2] != "play"[2];
    assert StartsWith("paused", "pause");
    assert "stop"[..4][0] != "play"[0];
  }

  /** The transition table, old cached state to new observed state. */
  lemma CheckPlayerTable(b: Baseline)
    requires b.state.Some?
    ensures var n := MapState(b.state.value); var e := CheckPlayer(b).events;
      (b.status == StatusPaused && n == StatusPlaying ==> e == [PlayerEvent(PLAYER_UNPAUSED)]) &&
      (b.status == StatusStopped && n == StatusPlaying ==> e == [PlayerEvent(PLAYER_STARTED)]) &&
      (b.status == StatusPlaying && n == StatusPaused ==> e == [PlayerEvent(PLAYER_PAUSED)]) &&
      (b.status == StatusStopped && n == StatusPaused ==> e == [] && CheckPlayer(b).next.status == StatusPaused) &&
      (b.status == StatusPaused && n == StatusPaused ==> e == []) &&
      (b.status == n ==> e == [])
  {
  }

  /**
   * Entering Stopped from another state zeroes the elapsed time and fires
   * STOPPED, followed by PLAYLIST_ENDED exactly when no song id was read.
   */
  lemma CheckPlayerEntersStopped(b: Baseline)
    requires b.state.Some? && MapState(b.state.value) == StatusStopped && b.status != StatusStopped
    ensures CheckPlayer(b).next.elapsedTime == 0
    ensures CheckPlayer(b).events[0] == PlayerEvent(PLAYER_STOPPED)
    ensures PlaylistEvent(PlaylistEnded) in CheckPlayer(b).events <==> b.newSongId == -1
    ensures CheckPlayer(b).events ==
      [PlayerEvent(PLAYER_STOPPED)] + (if b.newSongId == -1 then [PlaylistEvent(PlaylistEnded)] else [])
  {
  }

  /** The version part of `checkPlaylist()`: a changed version fires PLAYLIST_CHANGED and is cached. */
  function VersionCheck(b: Baseline): (s: Step)
    ensures s.next == b.(oldPlaylistVersion := b.newPlaylistVersion)
    ensures s.events != [] <==> b.oldPlaylistVersion != b.newPlaylistVersion
    ensures s.events != [] ==> s.events == [PlaylistEvent(PlaylistChanged)]
  {
    if b.oldPlaylistVersion != b.newPlaylistVersion then
      Step(b.(oldPlaylistVersion := b.newPlaylistVersion), [PlaylistEvent(PlaylistChanged)])
    else Step(b, [])
  }

  /** The length part: growth fires SONG_ADDED, shrinkage SONG_DELETED, and a changed length is cached. */
  function LengthCheck(b: Baseline): (s: Step)
    ensures s.next == b.(oldPlaylistLength := b.newPlaylistLength)
    ensures s.events != [] <==> b.oldPlaylistLength != b.newPlaylistLength
    ensures s.events != [] ==>
      s.events == [PlaylistEvent(if b.oldPlaylistLength < b.newPlaylistLength then SongAdded else SongDeleted)]
  {
    if b.oldPlaylistLength != b.newPlaylistLength then
      var e :=
        if b.oldPlaylistLength < b.newPlaylistLength then [PlaylistEvent(SongAdded)]
        else if b.oldPlaylistLength > b.newPlaylistLength then [PlaylistEvent(SongDeleted)]
        else [];
      Step(b.(oldPlaylistLength := b.newPlaylistLength), e)
    else Step(b, [])
  }

  /**
   * The song part, only while Playing: a changed position fires
   * SONG_CHANGED and caches the position alone; otherwise a changed id
   * fires it and caches the id.
   */
  function SongCheck(b: Baseline): (s: Step)
    ensures s.next == b.(oldSong := s.next.oldSong, oldSongId := s.next.oldSongId)
    ensures s.events != [] <==> b.status == StatusPlaying && (b.oldSong != b.newSong || b.oldSongId != b.newSongId)
    ensures s.events != [] ==> s.events == [PlaylistEvent(SongChanged)]
    ensures s.next.oldSong == if b.status == StatusPlaying then b.newSong else b.oldSong
    ensures s.next.oldSongId ==
      if b.status == StatusPlaying && b.oldSong == b.newSong then b.newSongId else b.oldSongId
  {
    if b.status == StatusPlaying then
      if b.oldSong != b.newSong then Step(b.(oldSong := b.newSong), [PlaylistEvent(SongChanged)])
      else if b.oldSongId != b.newSongId then Step(b.(oldSongId := b.newSongId), [PlaylistEvent(SongChanged)])
      else Step(b, [])
    else Step(b, [])
  }

  /**
   * `checkPlaylist()`, with `gate` saying whether playlist listeners exist:
   * version, then length, then the song.
   */
  function CheckPlaylist(b: Baseline, gate: bool): (s: Step)
    ensures !gate ==> s == Step(b, [])
    ensures s.next.status == b.status
    ensures forall e :: e in s.events ==> e.PlaylistEvent?
  {
    if !gate then Step(b, [])
    else
      var v := VersionCheck(b);
      var l := LengthCheck(v.next);
      var c := SongCheck(l.next);
      Step(c.next, v.events + l.events + c.events)
  }

  /** How often `e` occurs in `events`. */
  function Count(events: seq<Event>, e: Event): nat
  {
    if events == [] then 0 else (if events[0] == e then 1 else 0) + Count(events[1..], e)
  }

  lemma {:induction false} CountAppend(a: seq<Event>, b: seq<Event>, e: Event)
    ensures Count(a + b, e) == Count(a, e) + Count(b, e)
  {
    if a != [] {
      assert (a + b)[0] == a[0];
      assert (a + b)[1..] == a[1..] + b;
      CountAppend(a[1..], b, e);
    } else {
      assert a + b == b;
    }
  }

  /**
   * `checkPlaylist`: without listeners nothing is compared or updated;
   * otherwise PLAYLIST_CHANGED fires exactly on a version change, SONG_ADDED
   * exactly on growth and SONG_DELETED exactly on shrinkage, SONG_CHANGED
   * fires at most once and only while Playing, and only the compared
   * baselines that differed are updated.
   */
  lemma CheckPlaylistEvents(b: Baseline, gate: bool)
    requires gate
    ensures var s := CheckPlaylist(b, gate);
      (PlaylistEvent(PlaylistChanged) in s.events <==> b.oldPlaylistVersion != b.newPlaylistVersion) &&
      (PlaylistEvent(SongAdded) in s.events <==> b.oldPlaylistLength < b.newPlaylistLength) &&
      (PlaylistEvent(SongDeleted) in s.events <==> b.oldPlaylistLength > b.newPlaylistLength) &&
      (PlaylistEvent(SongChanged) in s.events <==>
        b.status == StatusPlaying && (b.oldSong != b.newSong || b.oldSongId != b.newSongId)) &&
      Count(s.events, PlaylistEvent(SongChanged)) <= 1
  {
    var v := VersionCheck(b);
    var l := LengthCheck(v.next);
    var c := SongCheck(l.next);
    assert CheckPlaylist(b, gate).events == v.events + l.events + c.events;
    assert Count(v.events, PlaylistEvent(SongChanged)) == 0;
    assert Count(l.events, PlaylistEvent(SongChanged)) == 0;
    CountAppend(v.events, l.events, PlaylistEvent(SongChanged));
    CountAppend(v.events + l.events, c.events, PlaylistEvent(SongChanged));
  }

  /**
   * `checkPlaylist` caches the new version and length, caches the position
   * while Playing, and caches the id only while Playing with an unchanged
   * position; nothing else changes.
   */
  lemma CheckPlaylistState(b: Baseline, gate: bool)
    requires gate
    ensures var n := CheckPlaylist(b, gate).next;
      n.oldPlaylistVersion == b.newPlaylistVersion &&
      n.oldPlaylistLength == b.newPlaylistLength &&
      n.oldSong == (if b.status == StatusPlaying then b.newSong else b.oldSong) &&
      n.oldSongId == (if b.status == StatusPlaying && b.oldSong == b.newSong then b.newSongId else b.oldSongId) &&
      n == b.(oldPlaylistVersion := n.oldPlaylistVersion, oldPlaylistLength := n.oldPlaylistLength,
              oldSong := n.oldSong, oldSongId := n.oldSongId)
  {
    var v := VersionCheck(b);
    var l := LengthCheck(v.next);
    var c := SongCheck(l.next);
    assert CheckPlaylist(b, gate).next == c.next;
  }

  /**
   * The else-if leaves the id baseline stale when the position changes: a
   * song change that moves both position and id is reported on two
   * consecutive ticks that read the same values.
   */
  lemma SongChangedTwice(b: Baseline)
    requires b.status == StatusPlaying && b.oldSong != b.newSong && b.oldSongId != b.newSongId
    requires b.oldPlaylistVersion == b.newPlaylistVersion && b.oldPlaylistLength == b.newPlaylistLength
    ensures CheckPlaylist(b, true).events == [PlaylistEvent(SongChanged)]
    ensures CheckPlaylist(CheckPlaylist(b, true).next, true).events == [PlaylistEvent(SongChanged)]
    ensures CheckPlaylist(CheckPlaylist(CheckPlaylist(b, true).next, true).next, true).events == []
  {
  }

  /** `checkVolume()`: with volume listeners, a changed volume fires with the new value and is cached. */
  function CheckVolume(b: Baseline, gate: bool): (s: Step)
    ensures !gate ==> s == Step(b, [])
    ensures gate ==> s.next == b.(oldVolume := b.newVolume)
    ensures gate ==> (s.events != [] <==> b.oldVolume != b.newVolume)
    ensures s.events != [] ==> s.events == [VolumeEvent(b.newVolume)]
  {
    if !gate then Step(b, [])
    else if b.oldVolume != b.newVolume then Step(b.(oldVolume := b.newVolume), [VolumeEvent(b.newVolume)])
    else Step(b, [])
  }

  /** `checkBitrate()`: with player listeners, a changed bitrate fires BITRATE_CHANGE and is cached. */
  function CheckBitrate(b: Baseline, gate: bool): (s: Step)
    ensures !gate ==> s == Step(b, [])
    ensures gate ==> s.next == b.(oldBitrate := b.newBitrate)
    ensures gate ==> (s.events != [] <==> b.oldBitrate != b.newBitrate)
    ensures s.events != [] ==> s.events == [PlayerEvent(PLAYER_BITRATE_CHANGE)]
  {
    if !gate then Step(b, [])
    else if b.oldBitrate != b.newBitrate then Step(b.(oldBitrate := b.newBitrate), [PlayerEvent(PLAYER_BITRATE_CHANGE)])
    else Step(b, [])
  }

  /**
   * A baseline left stale while nobody listened is reported to the first
   * listener: any number of unobserved ticks keep the old bitrate, and the
   * first observed one fires even though the bitrate has not moved since.
   */
  lemma StaleBitrateReported(b: Baseline, unobserved: nat)
    requires b.oldBitrate != b.newBitrate
    ensures IterateUnobservedBitrate(b, unobserved).oldBitrate == b.oldBitrate
    ensures CheckBitrate(IterateUnobservedBitrate(b, unobserved), true).events == [PlayerEvent(PLAYER_BITRATE_CHANGE)]
  {
    UnobservedBitrateKeeps(b, unobserved);
  }

  /** `n` bitrate checks with no player listener. */
  function IterateUnobservedBitrate(b: Baseline, n: nat): Baseline
  {
    if n == 0 then b else CheckBitrate(IterateUnobservedBitrate(b, n - 1), false).next
  }

  lemma {:induction false} UnobservedBitrateKeeps(b: Baseline, n: nat)
    ensures IterateUnobservedBitrate(b, n) == b
  {
    if n > 0 { UnobservedBitrateKeeps(b, n - 1); }
  }

  // ---------------------------------------------------------------- outputs

  /** `loadOutputs(outputs)`: clear the map, then put each output under its id, in list order. */
  function OutputMapOf(outputs: seq<Output>): map<int, Output>
  {
    if outputs == [] then map[]
    else
      var n := |outputs| - 1;
      OutputMapOf(outputs[..n])[outputs[n].id := outputs[n]]
  }

  /** After loading, the keys are exactly the ids listed, and each maps to the last output with that id. */
  lemma {:induction false} OutputMapOfContents(outputs: seq<Output>)
    ensures OutputMapOf(outputs).Keys == set o | o in outputs :: o.id
    ensures forall id :: id in OutputMapOf(outputs) ==>
      exists i :: (0 <= i < |outputs| && outputs[i] == OutputMapOf(outputs)[id] && outputs[i].id == id &&
        forall j :: i < j < |outputs| ==> outputs[j].id != id)
  {
    if outputs != [] {
      var n := |outputs| - 1;
      var prefix := outputs[..n];
      OutputMapOfContents(prefix);
      assert outputs == prefix + [outputs[n]];
      var m := OutputMapOf(outputs);
      forall id | id in m
        ensures exists i :: (0 <= i < |outputs| && outputs[i] == m[id] && outputs[i].id == id &&
          forall j :: i < j < |outputs| ==> outputs[j].id != id)
      {
        if id == outputs[n].id {
          assert outputs[n] == m[id];
        } else {
          var i :| 0 <= i < |prefix| && prefix[i] == OutputMapOf(prefix)[id] && prefix[i].id == id &&
            (forall j :: i < j < |prefix| ==> prefix[j].id != id);
          assert outputs[i] == m[id];
          assert forall j :: i < j < |outputs| ==> outputs[j].id != id by {
            forall j | i < j < |outputs| ensures outputs[j].id != id {
              if j < n { assert outputs[j] == prefix[j]; }
            }
          }
        }
      }
    }
  }

  /** The first fetched output whose id is unknown to `m` or whose enabled flag differs from the cached one. */
  function FirstChanged(outputs: seq<Output>, m: map<int, Output>): (r: Option<Output>)
    ensures r.Some? ==> r.value in outputs && (r.value.id !in m || m[r.value.id].enabled != r.value.enabled)
    ensures r.None? <==> forall o :: o in outputs ==> o.id in m && m[o.id].enabled == o.enabled
  {
    if outputs == [] then None
    else
      var out := outputs[0];
      if out.id !in m || m[out.id].enabled != out.enabled then Some(out)
      else
        assert forall o :: o in outputs ==> o == out || o in outputs[1..];
        FirstChanged(outputs[1..], m)
  }

  /**
   * `checkOutputs()`, with output listeners and the fetched list: more
   * outputs than cached fire ADDED, fewer DELETED, the same number CHANGED
   * for the first unknown or flipped output; the map is reloaded exactly
   * when something fires.
   */
  function CheckOutputs(b: Baseline, outputs: seq<Output>): (s: Step)
    ensures s.next.status == b.status
    ensures forall e :: e in s.events ==> e.OutputEvent?
  {
    if |outputs| > |b.outputMap| then
      Step(b.(outputMap := OutputMapOf(outputs)), [OutputEvent(OutputAdded, None)])
    else if |outputs| < |b.outputMap| then
      Step(b.(outputMap := OutputMapOf(outputs)), [OutputEvent(OutputDeleted, None)])
    else
      match FirstChanged(outputs, b.outputMap)
      case None => Step(b, [])
      case Some(out) => Step(b.(outputMap := OutputMapOf(outputs)), [OutputEvent(OutputChanged, Some(out))])
  }

  /**
   * `checkOutputs` fires at most one event, touches only the output map,
   * reloads it exactly when it fires, and stays silent exactly when the
   * sizes agree and every fetched output is known with the same flag.
   */
  lemma CheckOutputsEvents(b: Baseline, outputs: seq<Output>)
    ensures var s := CheckOutputs(b, outputs);
      |s.events| <= 1 &&
      s.next == b.(outputMap := s.next.outputMap) &&
      (s.events != [] ==> s.next.outputMap == OutputMapOf(outputs)) &&
      (s.events == [] ==> s.next == b) &&
      (s.events == [OutputEvent(OutputAdded, None)] <==> |outputs| > |b.outputMap|) &&
      (s.events == [OutputEvent(OutputDeleted, None)] <==> |outputs| < |b.outputMap|) &&
      (s.events == [] <==> (|outputs| == |b.outputMap| &&
        forall o :: o in outputs ==> o.id in b.outputMap && b.outputMap[o.id].enabled == o.enabled))
  {
  }

  // ---------------------------------------------------------------- one tick

  /** Why a tick stopped early: a null state word (NullPointerException) or a failed output fetch. */
  datatype Fault = NullState | OutputsUnavailable

  datatype TickResult = TickResult(next: Baseline, events: seq<Event>, outcome: Outcome<Fault>)

  /**
   * The checks after `checkError`, from `checkPlayer` on. A failed output
   * fetch (asked for only when output listeners exist) ends the tick inside
   * `checkOutputs`. The track-position and connection checks of the
   * superclass, which run in between, are not part of this model.
   */
  function RunChecks(b: Baseline, reg: Registry, outputs: Option<seq<Output>>): (r: TickResult)
    requires b.state.Some?
    ensures forall e :: e in r.events ==> IsCheckEvent(e)
    ensures r.next.status == MapState(b.state.value)
    ensures r.outcome.Fail? <==> reg.output != [] && outputs.None?
    ensures r.outcome.Fail? ==> r.outcome.error == OutputsUnavailable
  {
    var pl := CheckPlayer(b);
    var ls := CheckPlaylist(pl.next, reg.playlist != []);
    var v := CheckVolume(ls.next, reg.volume != []);
    var br := CheckBitrate(v.next, reg.player != []);
    var o := OutputsCheck(br.next, reg.output != [], outputs);
    TickResult(o.next, pl.events + ls.events + v.events + br.events + o.events, o.outcome)
  }

  /** The guard of `checkOutputs()` and its fetch: nothing without listeners, a failure when the fetch fails. */
  function OutputsCheck(b: Baseline, gate: bool, outputs: Option<seq<Output>>): (r: TickResult)
    ensures r.next.status == b.status
    ensures forall e :: e in r.events ==> e.OutputEvent?
    ensures r.outcome.Fail? <==> gate && outputs.None?
    ensures r.outcome.Fail? ==> r.outcome.error == OutputsUnavailable && r.next == b && r.events == []
    ensures !gate ==> r == TickResult(b, [], Pass)
  {
    if !gate then TickResult(b, [], Pass)
    else if outputs.None? then TickResult(b, [], Fail(OutputsUnavailable))
    else
      var o := CheckOutputs(b, outputs.value);
      TickResult(o.next, o.events, Pass)
  }

  /** One iteration of `run`: the walk, `checkError`, then the other checks; a null state ends it in `checkPlayer`. */
  function Tick(b: Baseline, reg: Registry, response: seq<(Key, string)>, outputs: Option<seq<Output>>): TickResult
    requires WellFormed(response)
  {
    var p := ProcessResponse(b, reg.player != [], response);
    var e := CheckError(p.next);
    if p.next.state.None? then TickResult(p.next, p.events + e.events, Fail(NullState))
    else
      var c := RunChecks(p.next, reg, outputs);
      TickResult(c.next, p.events + e.events + c.events, c.outcome)
  }

  /** The events of the checks from `checkPlayer` on, none when the state is null. */
  function LaterEvents(b: Baseline, reg: Registry, outputs: Option<seq<Output>>): (r: seq<Event>)
    ensures forall e :: e in r ==> IsCheckEvent(e)
  {
    if b.state.None? then [] else RunChecks(b, reg, outputs).events
  }

  /** The error event a readout leads to, if any. */
  function ErrorPart(err: Option<string>): seq<Event>
  {
    if err.Some? then [ErrorEvent(err.value)] else []
  }

  /**
   * The events of a tick are the walk's mode events, then the error event
   * of this readout when it carries one, then the events of the later checks.
   */
  lemma TickEvents(b: Baseline, reg: Registry, response: seq<(Key, string)>, outputs: Option<seq<Output>>)
    requires WellFormed(response)
    ensures var p := ProcessResponse(b, reg.player != [], response);
      Tick(b, reg, response, outputs).events ==
        p.events + ErrorPart(LastValue(response, Error)) + LaterEvents(p.next, reg, outputs)
    ensures forall e :: e in ProcessResponse(b, reg.player != [], response).events ==> IsModeEvent(e)
  {
    WalkEvents(b.(newSongId := -1, newSong := -1, error := None), reg.player != [], response);
    ProcessResponseRest(b, reg.player != [], response);
  }

  /** In mode events, then an optional error event, then check events, no mode event follows one of another kind. */
  lemma ModeEventsLead(a: seq<Event>, err: Option<string>, c: seq<Event>)
    requires forall e :: e in a ==> IsModeEvent(e)
    requires forall e :: e in c ==> IsCheckEvent(e)
    ensures var events := a + ErrorPart(err) + c;
      forall i, j :: 0 <= i < j < |events| && IsModeEvent(events[j]) ==> IsModeEvent(events[i])
  {
    var events := a + ErrorPart(err) + c;
    forall i, j | 0 <= i < j < |events| && IsModeEvent(events[j])
      ensures IsModeEvent(events[i])
    {
      if j >= |a| {
        assert events[j] in ErrorPart(err) + c;
      }
      assert events[i] in a;
    }
  }

  /** In mode events, then an optional error event, then check events, the error events are exactly that one. */
  lemma ErrorEventAlone(a: seq<Event>, err: Option<string>, c: seq<Event>)
    requires forall e :: e in a ==> IsModeEvent(e)
    requires forall e :: e in c ==> IsCheckEvent(e)
    ensures var events := a + ErrorPart(err) + c;
      ((exists e :: e in events && e.ErrorEvent?) <==> err.Some?) &&
      (forall e :: e in events && e.ErrorEvent? ==> err == Some(e.message))
  {
    var events := a + ErrorPart(err) + c;
    if err.Some? {
      assert events[|a|] == ErrorEvent(err.value);
    }
  }

  /** No mode event follows an event of another kind: mode-flag events fire inside the walk, before any check. */
  lemma TickModeEventsFirst(b: Baseline, reg: Registry, response: seq<(Key, string)>, outputs: Option<seq<Output>>)
    requires WellFormed(response)
    ensures var t := Tick(b, reg, response, outputs);
      forall i, j :: 0 <= i < j < |t.events| && IsModeEvent(t.events[j]) ==> IsModeEvent(t.events[i])
  {
    TickEvents(b, reg, response, outputs);
    var p := ProcessResponse(b, reg.player != [], response);
    ModeEventsLead(p.events, LastValue(response, Error), LaterEvents(p.next, reg, outputs));
  }

  /** An error event fires exactly on the ticks whose readout carries the error key, and carries that key's value. */
  lemma TickErrorEvent(b: Baseline, reg: Registry, response: seq<(Key, string)>, outputs: Option<seq<Output>>)
    requires WellFormed(response)
    ensures var t := Tick(b, reg, response, outputs);
      (exists e :: e in t.events && e.ErrorEvent?) <==> LastValue(response, Error).Some?
    ensures var t := Tick(b, reg, response, outputs);
      forall e :: e in t.events && e.ErrorEvent? ==> LastValue(response, Error) == Some(e.message)
  {
    TickEvents(b, reg, response, outputs);
    var p := ProcessResponse(b, reg.player != [], response);
    ErrorEventAlone(p.events, LastValue(response, Error), LaterEvents(p.next, reg, outputs));
  }

  /** After a tick that gets through `checkPlayer`, the cached status is the mapped state of the last state word. */
  lemma TickStatus(b: Baseline, reg: Registry, response: seq<(Key, string)>, outputs: Option<seq<Output>>)
    requires WellFormed(response)
    ensures var t := Tick(b, reg, response, outputs);
      var state := if LastValue(response, State).Some? then LastValue(response, State) else b.state;
      (t.outcome == Fail(NullState) <==> state.None?) &&
      (state.Some? ==> t.next.status == MapState(state.value))
  {
    ProcessResponseRest(b, reg.player != [], response);
  }

  // ---------------------------------------------------------------- deliveries, construction and the run loop

  /** The listener calls a sequence of fire calls makes, in order. */
  function Delivered(reg: Registry, events: seq<Event>): seq<(ListenerId, Event)>
  {
    if events == [] then [] else Deliveries(reg, events[0]) + Delivered(reg, events[1..])
  }

  lemma DeliveredSingle(reg: Registry, e: Event)
    ensures Delivered(reg, [e]) == Deliveries(reg, e)
  {
    assert [e][1..] == [];
  }

  lemma {:induction false} DeliveredAppend(reg: Registry, a: seq<Event>, b: seq<Event>)
    ensures Delivered(reg, a + b) == Delivered(reg, a) + Delivered(reg, b)
  {
    if a == [] {
      assert a + b == b;
    } else {
      assert (a + b)[0] == a[0];
      assert (a + b)[1..] == a[1..] + b;
      DeliveredAppend(reg, a[1..], b);
    }
  }

  /** A category without listeners hears nothing. */
  lemma {:induction false} DeliveredReachesRegistered(reg: Registry, events: seq<Event>)
    ensures forall c :: c in Delivered(reg, events) ==>
      match c.1
      case PlayerEvent(_) => c.0 in reg.player
      case PlaylistEvent(_) => c.0 in reg.playlist
      case VolumeEvent(_) => c.0 in reg.volume
      case ErrorEvent(_) => c.0 in reg.error
      case OutputEvent(_, _) => c.0 in reg.output
  {
    if events != [] {
      DeliveredReachesRegistered(reg, events[1..]);
      var d := Deliveries(reg, events[0]);
      forall c | c in d
        ensures match c.1
          case PlayerEvent(_) => c.0 in reg.player
          case PlaylistEvent(_) => c.0 in reg.playlist
          case VolumeEvent(_) => c.0 in reg.volume
          case ErrorEvent(_) => c.0 in reg.error
          case OutputEvent(_, _) => c.0 in reg.output
      {
        var k :| 0 <= k < |d| && d[k] == c;
      }
    }
  }

  /**
   * The constructor: the initial status readout is walked with no listener
   * registered, then the outputs are loaded; a failed query leaves the
   * defaults (a failed status query skips the output load too).
   */
  function Initial(status: Option<seq<(Key, string)>>, outputs: Option<seq<Output>>): (b: Baseline)
    requires status.Some? ==> WellFormed(status.value)
  {
    if status.None? then INITIAL
    else
      var p := ProcessResponse(INITIAL, false, status.value).next;
      if outputs.None? then p else p.(outputMap := OutputMapOf(outputs.value))
  }

  /** Construction fires nothing and leaves the other baselines at Java's defaults. */
  lemma InitialFacts(status: Option<seq<(Key, string)>>, outputs: Option<seq<Output>>)
    requires status.Some? ==> WellFormed(status.value)
    ensures status.Some? ==> ProcessResponse(INITIAL, false, status.value).events == []
    ensures var b := Initial(status, outputs);
      b.oldVolume == 0 && b.oldPlaylistVersion == 0 && b.oldPlaylistLength == 0 && b.oldBitrate == 0 &&
      b.oldRepeat == 0 && b.oldRandom == 0 && b.oldSingleMode == 0 && b.oldConsume == 0 &&
      b.status == StatusStopped &&
      b.outputMap == (if status.Some? && outputs.Some? then OutputMapOf(outputs.value) else map[])
  {
    if status.Some? {
      WalkEvents(INITIAL.(newSongId := -1, newSong := -1, error := None), false, status.value);
      ProcessResponseModes(INITIAL, false, status.value);
      ProcessResponseRest(INITIAL, false, status.value);
    }
  }

  /** One query of `run`: the status readout (None when the query failed) and the outputs fetched. */
  type Poll = (Option<seq<(Key, string)>>, Option<seq<Output>>)

  predicate PollsWellFormed(polls: seq<Poll>)
  {
    forall p :: p in polls ==> (p.0.Some? ==> WellFormed(p.0.value))
  }

  datatype RunResult = RunResult(next: Baseline, events: seq<Event>, crashed: bool)

  /**
   * The loop of `run` over successive polls: a failed status query skips
   * the tick, a failed output fetch ends only its own tick, and a null state
   * ends the loop (the NullPointerException leaves `run`), so no later poll
   * is looked at.
   */
  function Run(b: Baseline, reg: Registry, polls: seq<Poll>): RunResult
    requires PollsWellFormed(polls)
    decreases |polls|
  {
    if polls == [] then RunResult(b, [], false)
    else if polls[0].0.None? then Run(b, reg, polls[1..])
    else
      var t := Tick(b, reg, polls[0].0.value, polls[0].1);
      if t.outcome == Fail(NullState) then RunResult(t.next, t.events, true)
      else
        var rest := Run(t.next, reg, polls[1..]);
        RunResult(rest.next, t.events + rest.events, rest.crashed)
  }

  /** A run that has already fired `fired` and continues as `r`. */
  function Resume(fired: seq<Event>, r: RunResult): (s: RunResult)
    ensures s.next == r.next && s.crashed == r.crashed
    ensures |s.events| == |fired| + |r.events| && s.events[..|fired|] == fired
  {
    RunResult(r.next, fired + r.events, r.crashed)
  }

  /** `Run` on the polls from `i` on takes one poll, then runs the rest. */
  lemma RunCons(b: Baseline, reg: Registry, polls: seq<Poll>, i: nat)
    requires PollsWellFormed(polls) && i < |polls|
    ensures polls[i].0.None? ==> Run(b, reg, polls[i..]) == Run(b, reg, polls[i + 1..])
    ensures polls[i].0.Some? ==>
      var t := Tick(b, reg, polls[i].0.value, polls[i].1);
      Run(b, reg, polls[i..]) ==
        if t.outcome == Fail(NullState) then RunResult(t.next, t.events, true)
        else Resume(t.events, Run(t.next, reg, polls[i + 1..]))
  {
    assert polls[i..][0] == polls[i];
    assert polls[i..][1..] == polls[i + 1..];
  }

  lemma ResumeTwice(a: seq<Event>, b: seq<Event>, r: RunResult)
    ensures Resume(a, Resume(b, r)) == Resume(a + b, r)
  {
    assert a + (b + r.events) == (a + b) + r.events;
  }
}

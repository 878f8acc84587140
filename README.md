# javampd core in Dafny

This project models the core of javampd, a Java client library for the Music Player Daemon (MPD):

- **`MPDStandAloneMonitor`** is the polling change detector. On each tick it walks the server's status readout. It compares the readout with the values it cached on the previous tick, and fires typed events to five per-category listener lists: player, playlist, volume, error and output.
- **`MPDPlayer`** is the playback controller. It sends commands, keeps a best-effort local player state and a pre-mute volume, and fires acknowledgement events.
- **`MPDItem`**, **`MPDSong`** and **`PlayerBasicChangeEvent`** are the value objects the two use.

The model follows the Java code's structure:

- `Monitor.StandAloneMonitor` is a class with the monitor's fields and methods. Every method that changes the cache is proved equal to a function in `MonitorSpec`: `ApplyEntry`, `ProcessResponse`, `CheckError`, `CheckPlayer`, `CheckPlaylist`, `CheckVolume`, `CheckBitrate`, `Tick` and `Run` to the function of the same name, the four mode checks (`CheckRepeat`, `CheckRandom`, `CheckSingleMode`, `CheckConsume`) to `ModeCheck`, `FireTransition` to `Transition`, `CheckOutputs` to `OutputsCheck`, and `MapStatus` to `MapState`. `LoadOutputs` is proved equal to `OutputMapOf`. The properties of the monitor are lemmas about those functions.
- The monitor keeps 21 fields between polls (`oldVolume`, `newVolume`, …, `status`, `outputMap`). They are held in one record field `cache: Baseline`, so the Java assignment `oldX = newX` becomes `cache := cache.(oldX := cache.newX)`.
- `Player.MpdPlayer` is a class with the controller's local state (`status` and `oldVolume`) and its two listener lists.
- `Items.Item` and `Songs.Song` are classes with mutable fields, matching their Java setters.
- `PlayerBasicEvents.PlayerBasicChangeEvent` is an immutable datatype.
- `JavaLang` writes out the parts of `java.lang` the core depends on, with Java's semantics:
  - 32-bit `int` wrap-around;
  - `trim`;
  - `split` with trailing empty pieces dropped;
  - `String.compareTo` and `String.hashCode`;
  - `Integer.parseInt` and `Integer.toString`;
  - `String.format("%08d")`.

Both Java classes have their own `PlayerStatus` enum with the same three constants. The model shares one datatype, `MpdStatus.PlayerStatus`.

The server is an oracle:

- The player receives a `Connection` value. `send` answers a command, `status` answers a status key with a value, null or a failure, and `currentSong` is the answer to the current-song query.
- The monitor receives each status readout as an ordered sequence of key/value entries (`None` when the query threw), and the output list as an `Option`.
- A fire call is modelled by returning the listener calls it made, in order. `Listeners.Dispatch` gives one listener call per registered listener, in registration order.
- Each monitor method returns the events it fired (`fired`) and the listener calls they made (`calls`). Each player operation does the same: `fired` lists the argument of every `firePlayerChangeEvent` and `fireVolumeChangeEvent` call it made, and `calls` is `MpdPlayer.Deliveries(fired)`, which hands each event, in order, to every listener of its list.

## Model

| member | source | states |
|---|---|---|
| Listeners.RemoveFirst | src/main/java/org/bff/javampd/monitor/MPDStandAloneMonitor.java:149-151 | `List.remove(listener)`: an absent listener leaves the list unchanged; otherwise exactly its first occurrence is taken out, and the rest keep their order |
| Listeners.RemoveFirstCount | src/main/java/org/bff/javampd/monitor/MPDStandAloneMonitor.java:149-151 | removing a listener drops exactly one of its occurrences and leaves every other listener's multiplicity unchanged |
| Listeners.AddThenRemove | src/main/java/org/bff/javampd/monitor/MPDStandAloneMonitor.java:140-151 | adding a listener and then removing it gives the original list back when the listener was not registered before |
| Listeners.Notify | src/main/java/org/bff/javampd/monitor/MPDStandAloneMonitor.java:159-165 | the fire loop calls every registered listener once, in registration order (`Dispatch`) |
| PlayerBasicEvents.IdsAreDistinct | src/main/java/org/bff/javampd/events/PlayerBasicChangeEvent.java:26-82 | the thirteen player-event ids are 0 to 12, each in its own place, so no two coincide |
| PlayerBasicEvents.NewWithMessage | src/main/java/org/bff/javampd/events/PlayerBasicChangeEvent.java:101-105 | an event exists exactly when the source is non-null, and it carries the given source, id and message |
| PlayerBasicEvents.New | src/main/java/org/bff/javampd/events/PlayerBasicChangeEvent.java:90-92 | the two-argument constructor gives the same event with a null message |
| Items.NamesEqualIsEquality | src/main/java/org/bff/javampd/objects/MPDItem.java:66-73 | the null-safe name comparison inside `equals` holds exactly when the optional names are equal |
| Items.NameHash | src/main/java/org/bff/javampd/objects/MPDItem.java:77-82 | the hash exists exactly when the name is non-null, because `name.length()` throws on null; the hash is a 32-bit `int` |
| Items.Item.constructor | src/main/java/org/bff/javampd/objects/MPDItem.java:19-29 | a new item has the given runtime class and name (null for the no-argument constructor) |
| Items.Item.SetName | src/main/java/org/bff/javampd/objects/MPDItem.java:45-47 | the name becomes the argument |
| Items.Item.ToString | src/main/java/org/bff/javampd/objects/MPDItem.java:50-52 | the string form is the name |
| Items.EqualsCharacterized | src/main/java/org/bff/javampd/objects/MPDItem.java:55-74 | `equals` holds exactly when the other item is non-null, of the same runtime class and has an equal name |
| Items.EqualsIsEquivalence | src/main/java/org/bff/javampd/objects/MPDItem.java:55-74 | `equals` is reflexive, symmetric and transitive |
| Items.EqualItemsHashEqually | src/main/java/org/bff/javampd/objects/MPDItem.java:77-82 | equal items have equal hashes, and hashing succeeds exactly when the name is non-null |
| Items.CompareToNullNames | src/main/java/org/bff/javampd/objects/MPDItem.java:85-90 | `compareTo` is -1 whenever this name is null, even when both are null; it is 1 when only the other name is null |
| Items.CompareToNames | src/main/java/org/bff/javampd/objects/MPDItem.java:85-93 | with both names present, `compareTo` is negative exactly on lexicographic precedence and zero exactly on equal names, and swapping the items negates it |
| Songs.AppendedForm | src/main/java/org/bff/javampd/objects/MPDSong.java:373-388 | what `StringBuffer.append` adds for an album: its name, or "null" for a null album or a null name |
| Songs.FormatToComparableStringOrder | src/main/java/org/bff/javampd/objects/MPDSong.java:390-392 | for tracks in [0, 10^8), the zero-padded form has eight characters, and comparing the forms orders them as the numbers are ordered, with equality exactly on equal numbers |
| Songs.Song.constructor | src/main/java/org/bff/javampd/objects/MPDSong.java:21-37 | a new song has all reference fields null, length and track 0, and position and id -1 |
| Songs.Song.GetTitle | src/main/java/org/bff/javampd/objects/MPDSong.java:45-47 | an alias, as in the source: the title is the item name that `getName` returns |
| Songs.Song.SetTitle | src/main/java/org/bff/javampd/objects/MPDSong.java:55-57 | only the name changes, to the title |
| Songs.Song.SetName | src/main/java/org/bff/javampd/objects/MPDItem.java:45-47 | only the name changes |
| Songs.Song.SetArtist | src/main/java/org/bff/javampd/objects/MPDSong.java:73-75 | only the artist changes |
| Songs.Song.SetAlbum | src/main/java/org/bff/javampd/objects/MPDSong.java:91-93 | only the album changes |
| Songs.Song.SetFile | src/main/java/org/bff/javampd/objects/MPDSong.java:110-112 | only the file changes |
| Songs.Song.SetLength | src/main/java/org/bff/javampd/objects/MPDSong.java:128-130 | only the length changes |
| Songs.Song.SetTrack | src/main/java/org/bff/javampd/objects/MPDSong.java:146-148 | only the track changes |
| Songs.Song.GetGenre | src/main/java/org/bff/javampd/objects/MPDSong.java:155-157 | the genre, or "No Genre" when it was never set |
| Songs.Song.SetGenre | src/main/java/org/bff/javampd/objects/MPDSong.java:164-166 | only the genre changes |
| Songs.Song.GetComment | src/main/java/org/bff/javampd/objects/MPDSong.java:173-175 | the comment, or "" when it was never set |
| Songs.Song.SetComment | src/main/java/org/bff/javampd/objects/MPDSong.java:182-184 | only the comment changes |
| Songs.Song.GetYear | src/main/java/org/bff/javampd/objects/MPDSong.java:191-193 | the year, or "No Year" when it was never set |
| Songs.Song.SetYear | src/main/java/org/bff/javampd/objects/MPDSong.java:200-202 | only the year changes |
| Songs.Song.SetPosition | src/main/java/org/bff/javampd/objects/MPDSong.java:252-254 | only the position changes |
| Songs.Song.SetId | src/main/java/org/bff/javampd/objects/MPDSong.java:261-263 | only the id changes |
| Songs.Song.GetDiscNumber | src/main/java/org/bff/javampd/objects/MPDSong.java:268-270 | the disc number, or "" when it was never set |
| Songs.Song.SetDiscNumber | src/main/java/org/bff/javampd/objects/MPDSong.java:275-277 | only the disc number changes |
| Songs.EqualsCharacterized | src/main/java/org/bff/javampd/objects/MPDSong.java:280-347 | `equals` holds exactly when the other song is non-null and every raw field, the name included, is equal |
| Songs.DefaultsDoNotCountForEquality | src/main/java/org/bff/javampd/objects/MPDSong.java:323-329 | `equals` reads the raw genre, not the defaulted getter: an unset genre and "No Genre" read the same but are not equal |
| Songs.HashUsesFourFields | src/main/java/org/bff/javampd/objects/MPDSong.java:350-370 | the hash depends only on the name, file, id and position |
| Songs.EqualSongsHashEqually | src/main/java/org/bff/javampd/objects/MPDSong.java:350-370 | equal songs have equal hashes, and hashing succeeds exactly when the name is non-null |
| Songs.CompareToByTrack | src/main/java/org/bff/javampd/objects/MPDSong.java:373-392 | songs whose albums print the same are ordered by track number, for tracks in [0, 10^8) |
| Songs.CompareToAntisymmetry | src/main/java/org/bff/javampd/objects/MPDSong.java:373-388 | swapping the two songs negates `compareTo` |
| Player.MakeCommand | src/main/java/org/bff/javampd/MPDPlayer.java:838-848 | the command has the given name, and no parameters when the parameter array is null |
| Player.PlayCommandParameters | src/main/java/org/bff/javampd/MPDPlayer.java:217-236 | without a song, plain play with no parameters; with a song, play-by-id with one parameter that parses back to the song's id |
| Player.Clamp | src/main/java/org/bff/javampd/MPDPlayer.java:485-490 | the volume sent lies in [0, 100]: unchanged inside the range, 100 above it, 0 below it |
| Player.ModeRoundTrip | src/main/java/org/bff/javampd/MPDPlayer.java:513-522 | a mode getter reads back the flag the matching setter sent, and an absent value reads as off |
| Player.GetVolume | src/main/java/org/bff/javampd/MPDPlayer.java:463-469 | `getVolume`: a server error passes through; a null value fails with NumberFormatException; a success is the parsed volume value |
| Player.GetXFade | src/main/java/org/bff/javampd/MPDPlayer.java:737-743 | `getXFade`: a server error passes through; a null value fails with NumberFormatException; a success is the parsed crossfade value |
| Player.BitrateAbsentFails | src/main/java/org/bff/javampd/MPDPlayer.java:440-449 | as written, an absent bitrate fails with NumberFormatException instead of reaching the null handler |
| Player.GetBitrate | src/main/java/org/bff/javampd/MPDPlayer.java:440-449 | corrected: an absent bitrate gives 0; for a present value or a server error, the same as the code as written |
| Player.IsRepeat | src/main/java/org/bff/javampd/MPDPlayer.java:513-522 | `isRepeat`: a server error passes through; otherwise true exactly when the value is "1" (null is false) |
| Player.IsSingleMode | src/main/java/org/bff/javampd/MPDPlayer.java:562-569 | `isSingleMode`: a server error passes through; otherwise true exactly when the value is "1" |
| Player.IsConsuming | src/main/java/org/bff/javampd/MPDPlayer.java:610-617 | `isConsuming`: a server error passes through; otherwise true exactly when the value is "1" |
| Player.IsRandom | src/main/java/org/bff/javampd/MPDPlayer.java:659-668 | `isRandom`: a server error passes through; otherwise true exactly when the value is "1" |
| Player.ElapsedTime | src/main/java/org/bff/javampd/MPDPlayer.java:777-792 | `getElapsedTime`: a server error passes through; an absent value gives 0, because the NullPointerException from `trim` is caught; a present value fails only with NumberFormatException, or with index-out-of-bounds when its trimmed form starts with ':' |
| Player.ElapsedTimeBeforeColon | src/main/java/org/bff/javampd/MPDPlayer.java:777-792 | a present time value succeeds exactly when the part of its trimmed form before the first ':' is a number, and gives that number |
| JavaLang.SplitAllJoin | src/main/java/org/bff/javampd/MPDPlayer.java:777-792 | the ':'-pieces `split` works from join back to the original string |
| Player.IntOrMinusOne | src/main/java/org/bff/javampd/MPDPlayer.java:808-836 | each audio part independently gives its number, or -1 where parsing throws |
| Player.AudioDetails | src/main/java/org/bff/javampd/MPDPlayer.java:795-836 | `getAudioDetails`: a server error passes through; an absent value gives null; a present value fails with index-out-of-bounds exactly when `split` gives fewer than three pieces, and otherwise each of the three fields is the number in its piece, or -1 where that piece is not a number |
| Player.AudioDetailsOfTriple | src/main/java/org/bff/javampd/MPDPlayer.java:808-836 | a value `x:y:z` with a non-empty last part gives each part's number, or -1 for a part that is not a number |
| Player.AudioDetailsEmptyChannels | src/main/java/org/bff/javampd/MPDPlayer.java:808-836 | a value `x:y:` fails with an index-out-of-bounds error, because `split` drops the trailing empty piece, instead of giving -1 channels |
| Player.GetStatus | src/main/java/org/bff/javampd/MPDPlayer.java:862-871 | a null state fails with NullPointerException, and a server error passes through. A present word is Playing exactly when it upper-cases to "PLAY", Paused exactly when it upper-cases to "PAUSE", and Stopped exactly when it upper-cases to neither |
| StateWords.ServerWordsAgree | src/main/java/org/bff/javampd/MPDPlayer.java:862-871 | on the server's words "play", "pause" and "stop", `getStatus` gives the same status as the monitor's reading of the word |
| StateWords.ReadingsDiffer | src/main/java/org/bff/javampd/monitor/MPDStandAloneMonitor.java:391-398 | the two readings differ on other words: "PLAY" is Playing for the player but Stopped for the monitor, and "playing" is Stopped for the player but Playing for the monitor |
| Player.MpdPlayer.constructor | src/main/java/org/bff/javampd/MPDPlayer.java:40-79 | a new player is Stopped, with pre-mute volume 0 and no listeners |
| Player.MpdPlayer.AddPlayerChangeListener | src/main/java/org/bff/javampd/MPDPlayer.java:131-133 | the listener is appended |
| Player.MpdPlayer.RemovePlayerChangedListener | src/main/java/org/bff/javampd/MPDPlayer.java:140-142 | the first occurrence of the listener is removed |
| Player.MpdPlayer.AddVolumeChangeListener | src/main/java/org/bff/javampd/MPDPlayer.java:164-166 | the listener is appended |
| Player.MpdPlayer.RemoveVolumeChangedListener | src/main/java/org/bff/javampd/MPDPlayer.java:173-175 | the first occurrence of the listener is removed |
| Player.MpdPlayer.FirePlayerChangeEvent | src/main/java/org/bff/javampd/MPDPlayer.java:150-156 | every player listener receives the event, in order |
| Player.MpdPlayer.FireVolumeChangeEvent | src/main/java/org/bff/javampd/MPDPlayer.java:183-189 | every volume listener receives the event, in order |
| Player.MpdPlayer.PlayId | src/main/java/org/bff/javampd/MPDPlayer.java:217-236 | play or play-by-id is sent. A failed send changes nothing and fires nothing. After success the state is Playing, and STARTED fires from Stopped or Paused, SONG_SET when already Playing |
| Player.MpdPlayer.Play | src/main/java/org/bff/javampd/MPDPlayer.java:201-203 | `playId(null)`: plain play with no parameters, with the same state and event rules |
| Player.MpdPlayer.SeekId | src/main/java/org/bff/javampd/MPDPlayer.java:271-310 | Without a song, the current song is used: a failed query or no song playing is an error. The current song is sought only when its length is strictly greater than `secs`; a given song when its length is at least `secs`. SEEKING fires exactly when the seek command was sent and succeeded |
| Player.MpdPlayer.Seek | src/main/java/org/bff/javampd/MPDPlayer.java:252-254 | `seekId(null, secs)`: the current-song rules |
| Player.MpdPlayer.Stop | src/main/java/org/bff/javampd/MPDPlayer.java:322-331 | after a successful stop the state is Stopped and STOPPED fires; a failed send changes nothing |
| Player.MpdPlayer.Pause | src/main/java/org/bff/javampd/MPDPlayer.java:343-353 | after a successful pause the state is Paused and PAUSED fires; a failed send changes nothing |
| Player.MpdPlayer.PlayNext | src/main/java/org/bff/javampd/MPDPlayer.java:365-373 | the next command is sent, and NEXT fires exactly when it succeeds |
| Player.MpdPlayer.PlayPrev | src/main/java/org/bff/javampd/MPDPlayer.java:385-394 | the previous command is sent, and PREVIOUS fires exactly when it succeeds |
| Player.MpdPlayer.SetVolume | src/main/java/org/bff/javampd/MPDPlayer.java:485-499 | the clamped volume is sent, and the volume event carries the clamped value only after a successful send |
| Player.MpdPlayer.Mute | src/main/java/org/bff/javampd/MPDPlayer.java:406-410 | the live volume is read and cached before anything is sent (a failed read sends nothing). Then 0 is sent, and a volume event of 0 and MUTED fire on success |
| Player.MpdPlayer.UnMute | src/main/java/org/bff/javampd/MPDPlayer.java:422-425 | the cached pre-mute volume is sent (clamped), and the volume event and UNMUTED fire on success |
| Player.MpdPlayer.SetMode | src/main/java/org/bff/javampd/MPDPlayer.java:536-548 | a mode setter sends its command with "1" for on and "0" for off, and the outcome is the send's |
| Player.MpdPlayer.SetRepeat | src/main/java/org/bff/javampd/MPDPlayer.java:536-548 | the repeat command with the flag |
| Player.MpdPlayer.SetSingleMode | src/main/java/org/bff/javampd/MPDPlayer.java:583-596 | the single command with the flag |
| Player.MpdPlayer.SetConsuming | src/main/java/org/bff/javampd/MPDPlayer.java:632-645 | the consume command with the flag |
| Player.MpdPlayer.SetRandom | src/main/java/org/bff/javampd/MPDPlayer.java:683-695 | the random command with the flag |
| Player.MpdPlayer.RandomizePlay | src/main/java/org/bff/javampd/MPDPlayer.java:707-709 | the random command with "1" |
| Player.MpdPlayer.UnRandomizePlay | src/main/java/org/bff/javampd/MPDPlayer.java:721-723 | the random command with "0" |
| Player.MpdPlayer.SetXFade | src/main/java/org/bff/javampd/MPDPlayer.java:757-763 | the crossfade command with the number |
| MonitorSpec.ModeCheck | src/main/java/org/bff/javampd/monitor/MPDStandAloneMonitor.java:535-544 | With player listeners, a changed mode value fires ON exactly for 1 (OFF otherwise) and is cached. Without listeners, nothing is compared or cached |
| MonitorSpec.RepeatEntry | src/main/java/org/bff/javampd/monitor/MPDStandAloneMonitor.java:535-544 | one repeat entry fires exactly when the value differs from the cache, REPEAT_ON exactly for 1, and the cache takes the value |
| MonitorSpec.LastIndex | src/main/java/org/bff/javampd/monitor/MPDStandAloneMonitor.java:579-628 | the position of the last entry of a key in the readout, or -1 when the key is absent |
| MonitorSpec.ApplyEntrySlot | src/main/java/org/bff/javampd/monitor/MPDStandAloneMonitor.java:579-628 | one entry writes the field of its own key and no other |
| MonitorSpec.ApplyEntryMode | src/main/java/org/bff/javampd/monitor/MPDStandAloneMonitor.java:579-628 | one mode entry moves its own mode cache, and only when player listeners exist |
| MonitorSpec.ApplyEntryOthers | src/main/java/org/bff/javampd/monitor/MPDStandAloneMonitor.java:579-628 | one entry writes the elapsed time, state or error only for its own key, and never an old baseline, the status or the output map |
| MonitorSpec.ProcessResponseCounters | src/main/java/org/bff/javampd/monitor/MPDStandAloneMonitor.java:579-628 | after the walk, each number fed by the readout holds its key's last value, or keeps its old value when the key is absent; the song position and id fall back to -1 |
| MonitorSpec.ProcessResponseModes | src/main/java/org/bff/javampd/monitor/MPDStandAloneMonitor.java:579-628 | the mode caches follow their keys' last values only when player listeners exist |
| MonitorSpec.ProcessResponseRest | src/main/java/org/bff/javampd/monitor/MPDStandAloneMonitor.java:579-628 | the elapsed time and state follow their last entries or keep their values; the error is the last error entry or null; the old baselines, status and output map are untouched |
| MonitorSpec.WalkEvents | src/main/java/org/bff/javampd/monitor/MPDStandAloneMonitor.java:579-628 | without player listeners the walk fires nothing, and every event it fires is a mode event |
| MonitorSpec.CheckPlayer | src/main/java/org/bff/javampd/monitor/MPDStandAloneMonitor.java:390-432 | the status becomes the mapped state; only the status and elapsed time change; an unchanged state fires nothing |
| MonitorSpec.Transition | src/main/java/org/bff/javampd/monitor/MPDStandAloneMonitor.java:401-429 | the switch changes at most the elapsed time, and fires only player and playlist events |
| MonitorSpec.MapStatePrefixes | src/main/java/org/bff/javampd/monitor/MPDStandAloneMonitor.java:391-398 | a word starting "play" is Playing, else one starting "pause" is Paused, and everything else is Stopped |
| MonitorSpec.CheckPlayerTable | src/main/java/org/bff/javampd/monitor/MPDStandAloneMonitor.java:400-430 | the transition table: Paused to Playing fires UNPAUSED; Stopped to Playing fires STARTED; Playing to Paused fires PAUSED; Stopped to Paused fires nothing but is cached; Paused to Paused fires nothing |
| MonitorSpec.CheckPlayerEntersStopped | src/main/java/org/bff/javampd/monitor/MPDStandAloneMonitor.java:412-418 | entering Stopped zeroes the elapsed time and fires STOPPED, followed by PLAYLIST_ENDED exactly when no song id was read |
| MonitorSpec.VersionCheck | src/main/java/org/bff/javampd/monitor/MPDStandAloneMonitor.java:498-501 | a changed playlist version fires PLAYLIST_CHANGED exactly once and is cached |
| MonitorSpec.LengthCheck | src/main/java/org/bff/javampd/monitor/MPDStandAloneMonitor.java:503-511 | growth fires SONG_ADDED and shrinkage SONG_DELETED, exactly when the length changed, and the new length is cached |
| MonitorSpec.SongCheck | src/main/java/org/bff/javampd/monitor/MPDStandAloneMonitor.java:513-521 | only while Playing: a changed position fires SONG_CHANGED and caches the position alone; otherwise a changed id fires it and caches the id |
| MonitorSpec.CheckPlaylist | src/main/java/org/bff/javampd/monitor/MPDStandAloneMonitor.java:493-522 | without playlist listeners nothing changes; the status is kept; only playlist events fire |
| MonitorSpec.CheckPlaylistEvents | src/main/java/org/bff/javampd/monitor/MPDStandAloneMonitor.java:493-522 | PLAYLIST_CHANGED exactly on a version change, SONG_ADDED exactly on growth, SONG_DELETED exactly on shrinkage; SONG_CHANGED at most once and exactly while Playing with a moved position or id |
| MonitorSpec.CheckPlaylistState | src/main/java/org/bff/javampd/monitor/MPDStandAloneMonitor.java:493-522 | the new version and length are cached, the position while Playing, and the id only while Playing with an unchanged position; nothing else changes |
| MonitorSpec.SongChangedTwice | src/main/java/org/bff/javampd/monitor/MPDStandAloneMonitor.java:513-521 | a song change that moves both the position and the id is reported on two consecutive ticks that read the same values, then no more |
| MonitorSpec.CheckVolume | src/main/java/org/bff/javampd/monitor/MPDStandAloneMonitor.java:524-533 | with volume listeners, the volume is cached and fires with the new value exactly when it changed; without listeners nothing changes |
| MonitorSpec.CheckBitrate | src/main/java/org/bff/javampd/monitor/MPDStandAloneMonitor.java:434-443 | with player listeners, the bitrate is cached and BITRATE_CHANGE fires exactly when it changed; without listeners nothing changes |
| MonitorSpec.StaleBitrateReported | src/main/java/org/bff/javampd/monitor/MPDStandAloneMonitor.java:434-443 | a bitrate change during any number of unobserved ticks is reported to the first listener, because the baseline stays stale |
| MonitorSpec.OutputMapOfContents | src/main/java/org/bff/javampd/monitor/MPDStandAloneMonitor.java:486-491 | after loading, the map's keys are exactly the listed ids, and each id maps to the last output listed with it |
| MonitorSpec.FirstChanged | src/main/java/org/bff/javampd/monitor/MPDStandAloneMonitor.java:468-482 | the output found is in the list and is unknown or has a flipped enabled flag; none is found exactly when every output is known with the same flag |
| MonitorSpec.CheckOutputsEvents | src/main/java/org/bff/javampd/monitor/MPDStandAloneMonitor.java:455-484 | At most one event fires, and only the output map changes. The map is reloaded exactly when an event fires. There are more outputs than cached exactly on ADDED, fewer exactly on DELETED, and silence exactly when the sizes agree and every output is known with the same flag |
| MonitorSpec.OutputsCheck | src/main/java/org/bff/javampd/monitor/MPDStandAloneMonitor.java:455-484 | without output listeners nothing happens; a failed output fetch ends the tick with the cache untouched |
| MonitorSpec.RunChecks | src/main/java/org/bff/javampd/monitor/MPDStandAloneMonitor.java:308-318 | the later checks fire only check events, leave the status at the mapped state, and fail exactly when output listeners exist and the fetch failed |
| MonitorSpec.TickEvents | src/main/java/org/bff/javampd/monitor/MPDStandAloneMonitor.java:308-318 | a tick fires the walk's mode events, then the error event of this readout, then the later checks' events |
| MonitorSpec.TickModeEventsFirst | src/main/java/org/bff/javampd/monitor/MPDStandAloneMonitor.java:308-318 | no mode event follows an event of another kind |
| MonitorSpec.TickErrorEvent | src/main/java/org/bff/javampd/monitor/MPDStandAloneMonitor.java:384-388 | an error event fires exactly on the ticks whose readout carries the error key, with that key's value |
| MonitorSpec.TickStatus | src/main/java/org/bff/javampd/monitor/MPDStandAloneMonitor.java:390-432 | a tick ends with a null-pointer fault exactly when no state is known; otherwise the cached status is the mapped last state word |
| MonitorSpec.DeliveredAppend | src/main/java/org/bff/javampd/monitor/MPDStandAloneMonitor.java:308-318 | the listener calls of two stretches of fire calls are those of the first followed by those of the second |
| MonitorSpec.DeliveredReachesRegistered | src/main/java/org/bff/javampd/monitor/MPDStandAloneMonitor.java:159-295 | every listener call goes to a listener registered for the event's category, so a category without listeners hears nothing |
| MonitorSpec.InitialFacts | src/main/java/org/bff/javampd/monitor/MPDStandAloneMonitor.java:115-132 | construction fires nothing, and leaves the old baselines at 0, the status Stopped, and the output map loaded only when both queries succeeded |
| MonitorSpec.RunCons | src/main/java/org/bff/javampd/monitor/MPDStandAloneMonitor.java:301-344 | the loop takes one poll and then runs the rest: a failed query is skipped, and a null state ends the loop |
| Monitor.StandAloneMonitor.constructor | src/main/java/org/bff/javampd/monitor/MPDStandAloneMonitor.java:115-132 | the delay is kept, no listener is registered, the monitor is not stopped, and the cache is the initial walk and output load (`Initial`) |
| Monitor.StandAloneMonitor.AddPlayerChangeListener | src/main/java/org/bff/javampd/monitor/MPDStandAloneMonitor.java:140-142 | the listener is appended |
| Monitor.StandAloneMonitor.RemovePlayerChangeListener | src/main/java/org/bff/javampd/monitor/MPDStandAloneMonitor.java:149-151 | the first occurrence of the listener is removed |
| Monitor.StandAloneMonitor.AddVolumeChangeListener | src/main/java/org/bff/javampd/monitor/MPDStandAloneMonitor.java:173-175 | the listener is appended |
| Monitor.StandAloneMonitor.RemoveVolumeChangedListener | src/main/java/org/bff/javampd/monitor/MPDStandAloneMonitor.java:182-184 | the first occurrence of the listener is removed |
| Monitor.StandAloneMonitor.AddOutputChangeListener | src/main/java/org/bff/javampd/monitor/MPDStandAloneMonitor.java:206-208 | the listener is appended |
| Monitor.StandAloneMonitor.RemoveOutputChangedListener | src/main/java/org/bff/javampd/monitor/MPDStandAloneMonitor.java:215-217 | the first occurrence of the listener is removed |
| Monitor.StandAloneMonitor.AddPlaylistChangeListener | src/main/java/org/bff/javampd/monitor/MPDStandAloneMonitor.java:237-239 | the listener is appended |
| Monitor.StandAloneMonitor.RemovePlaylistStatusChangedListener | src/main/java/org/bff/javampd/monitor/MPDStandAloneMonitor.java:246-248 | the first occurrence of the listener is removed |
| Monitor.StandAloneMonitor.AddMPDErrorListener | src/main/java/org/bff/javampd/monitor/MPDStandAloneMonitor.java:270-272 | the listener is appended |
| Monitor.StandAloneMonitor.RemoveMPDErrorListener | src/main/java/org/bff/javampd/monitor/MPDStandAloneMonitor.java:279-281 | the first occurrence of the listener is removed |
| Monitor.StandAloneMonitor.FirePlayerChangeEvent | src/main/java/org/bff/javampd/monitor/MPDStandAloneMonitor.java:159-165 | every player listener receives the event, in order |
| Monitor.StandAloneMonitor.FireVolumeChangeEvent | src/main/java/org/bff/javampd/monitor/MPDStandAloneMonitor.java:192-198 | every volume listener receives the event, in order |
| Monitor.StandAloneMonitor.FireOutputChangeEvent | src/main/java/org/bff/javampd/monitor/MPDStandAloneMonitor.java:225-229 | every output listener receives the event, in order |
| Monitor.StandAloneMonitor.FirePlaylistChangeEvent | src/main/java/org/bff/javampd/monitor/MPDStandAloneMonitor.java:256-262 | every playlist listener receives the event, in order |
| Monitor.StandAloneMonitor.FireMPDErrorEvent | src/main/java/org/bff/javampd/monitor/MPDStandAloneMonitor.java:289-295 | every error listener receives the event, in order |
| Monitor.StandAloneMonitor.CheckRepeat | src/main/java/org/bff/javampd/monitor/MPDStandAloneMonitor.java:535-544 | only the repeat cache changes, as `ModeCheck` says, and the fired events reach the player listeners |
| Monitor.StandAloneMonitor.CheckRandom | src/main/java/org/bff/javampd/monitor/MPDStandAloneMonitor.java:546-555 | only the random cache changes, as `ModeCheck` says |
| Monitor.StandAloneMonitor.CheckSingleMode | src/main/java/org/bff/javampd/monitor/MPDStandAloneMonitor.java:557-566 | only the single-mode cache changes, as `ModeCheck` says |
| Monitor.StandAloneMonitor.CheckConsume | src/main/java/org/bff/javampd/monitor/MPDStandAloneMonitor.java:568-577 | only the consume cache changes, as `ModeCheck` says |
| Monitor.StandAloneMonitor.ApplyEntry | src/main/java/org/bff/javampd/monitor/MPDStandAloneMonitor.java:585-626 | one entry of the walk changes the cache and fires as `MonitorSpec.ApplyEntry` says |
| Monitor.StandAloneMonitor.ProcessResponse | src/main/java/org/bff/javampd/monitor/MPDStandAloneMonitor.java:579-628 | the loop resets the song position, id and error, then walks the entries in order, as `MonitorSpec.ProcessResponse` says |
| Monitor.StandAloneMonitor.CheckError | src/main/java/org/bff/javampd/monitor/MPDStandAloneMonitor.java:384-388 | the error of this readout is fired when it is present |
| Monitor.StandAloneMonitor.MapStatus | src/main/java/org/bff/javampd/monitor/MPDStandAloneMonitor.java:391-398 | the if-chain computes `MapState` |
| Monitor.StandAloneMonitor.FireTransition | src/main/java/org/bff/javampd/monitor/MPDStandAloneMonitor.java:401-429 | the switch changes the cache and fires as `Transition` says |
| Monitor.StandAloneMonitor.CheckPlayer | src/main/java/org/bff/javampd/monitor/MPDStandAloneMonitor.java:390-432 | as `MonitorSpec.CheckPlayer` says |
| Monitor.StandAloneMonitor.CheckPlaylist | src/main/java/org/bff/javampd/monitor/MPDStandAloneMonitor.java:493-522 | as `MonitorSpec.CheckPlaylist` says, with the listener gate |
| Monitor.StandAloneMonitor.CheckVolume | src/main/java/org/bff/javampd/monitor/MPDStandAloneMonitor.java:524-533 | as `MonitorSpec.CheckVolume` says |
| Monitor.StandAloneMonitor.CheckBitrate | src/main/java/org/bff/javampd/monitor/MPDStandAloneMonitor.java:434-443 | as `MonitorSpec.CheckBitrate` says |
| Monitor.StandAloneMonitor.LoadOutputs | src/main/java/org/bff/javampd/monitor/MPDStandAloneMonitor.java:486-491 | only the output map changes, to `OutputMapOf(outputs)` |
| Monitor.StandAloneMonitor.CheckOutputs | src/main/java/org/bff/javampd/monitor/MPDStandAloneMonitor.java:455-484 | the size comparison and the search loop for the first changed output behave as `OutputsCheck` says |
| Monitor.StandAloneMonitor.Tick | src/main/java/org/bff/javampd/monitor/MPDStandAloneMonitor.java:308-318 | one tick after a successful query is `MonitorSpec.Tick`, leaves the listener lists and the stopped flag alone, and makes the listener calls of the events it fires |
| Monitor.StandAloneMonitor.Run | src/main/java/org/bff/javampd/monitor/MPDStandAloneMonitor.java:301-344 | a stopped monitor does nothing; otherwise the loop over the polls is `MonitorSpec.Run` |
| Monitor.StandAloneMonitor.Stop | src/main/java/org/bff/javampd/monitor/MPDStandAloneMonitor.java:357-359 | the monitor is stopped |
| Monitor.StandAloneMonitor.IsStopped | src/main/java/org/bff/javampd/monitor/MPDStandAloneMonitor.java:367-369 | the stopped flag |
| Monitor.StandAloneMonitor.GetStatus | src/main/java/org/bff/javampd/monitor/MPDStandAloneMonitor.java:376-378 | the cached status |

## Left out

- Threads: `start()`, the executor, `synchronized`, `wait(delay)` and `Thread.sleep`. The run loop is modelled over a finite sequence of polls, without timing. `stop()` cannot interrupt it mid-run. InterruptedException is not modelled.
- The reconnect loop of `run()` after a connection exception, and the superclass checks `checkTrackPosition` and `checkConnection` (and the connection events they fire). The superclass is not part of this model.
- The one-argument monitor constructor with the default delay of 1000 ms.
- The printing of a caught constructor exception.
- MonitorSpec.WellFormed: two failures of `processResponse` are excluded by precondition and not modelled as escaping exceptions. One is a numeric entry that does not parse (NumberFormatException). The other is a time value made only of ':' characters, for which `value.split(":")[0]` (`MPDStandAloneMonitor.java:619`) throws ArrayIndexOutOfBoundsException; the precondition asks that `split` leave at least one piece.
- Status keys (`StatusList` prefixes) are the constructors of `MpdStatus.Key`, not their prefix strings.
- The readout `HashMap` is walked in the order of the modelled sequence; Java's iteration order is unspecified.
- Strings are sequences of Dafny characters, not UTF-16 code units. `equalsIgnoreCase` folds ASCII letters only, and digits are ASCII only.
- Event source objects: the monitor's events carry only the category, id or change, and message.
- `MPDSong.toString`.
- `MPDSong`'s album and artist are `MPDAlbum` and `MPDArtist` objects in Java. The model keeps only their optional names, which is all that `compareTo` and `equals` read. MPDAlbum and MPDArtist are not part of this model.
- Player.MpdPlayer.SeekId: the code asks for the current song up to three times. The oracle gives the same answer to each.
- The runtime-class test in `MPDSong.equals`: the `Song?` parameter covers only songs.
- Exception wrapping: the player's failures are `Failure` values named after the exceptions, and MPDPlayerException's command text is not kept.
- `getCurrentSong`: its answer is the `currentSong` oracle.
- The command texts: they come from the connection's properties file, so command names are the `CommandName` values.

Behaviours of the code that a reader of its comments might not expect. The model follows the code:

- **Order of events within a tick.** `run` calls `processResponse` before `checkError`, `checkPlayer`, `checkPlaylist`, `checkVolume`, `checkBitrate` and `checkOutputs` (`MPDStandAloneMonitor.java:309-318`). The mode checks are called from inside `processResponse` (lines 592-601), so mode-flag events fire first in a tick, before every other event (`MonitorSpec.TickModeEventsFirst`).
- **Paused to Paused.** `checkPlayer` enters its switch only when `status != newStatus` (line 400), so its Paused-to-Paused arm, which would fire UNPAUSED (lines 422-424), is never reached; re-observing Paused fires nothing (`MonitorSpec.CheckPlayerTable`).
- **Song change.** `checkPlaylist` tests the position and then, with an else-if, the id, and caches only the one that fired (lines 513-521). A change that moves both is reported on two consecutive ticks (`MonitorSpec.SongChangedTwice`).
- **Stale bitrate.** `checkBitrate` returns before caching the bitrate when there is no player listener (lines 435-437). A bitrate change made while nobody listens is reported to the first listener added later (`MonitorSpec.StaleBitrateReported`).
- **Elapsed time.** `getElapsedTime` catches only NullPointerException (`MPDPlayer.java:786-790`). An absent value gives 0; a present value that is not a number fails with NumberFormatException (`Player.ElapsedTime`).
- **Audio details.** The comment of `getAudioDetails` says that an unknown part is -1 (`MPDPlayer.java:795-797`). A part that is not a number is -1, but a value whose `split` leaves fewer than three pieces, such as `44100:16:`, fails with an index error (`Player.AudioDetailsEmptyChannels`).

## Findings

| source | as written | input that shows it | evidently intended | confidence | as-written member | corrected member |
|---|---|---|---|---|---|---|
| src/main/java/org/bff/javampd/MPDPlayer.java:440-449 | `Integer.parseInt(null)` throws NumberFormatException, so the NullPointerException handler returning 0 never runs | a status readout with no bitrate key (`getStatus` returns null) | an absent bitrate gives 0, as the handler and the method's comment say | high (not executed) | Player.BitrateAbsentFails | Player.GetBitrate |

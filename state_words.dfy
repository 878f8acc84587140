/**
 * The server's state word is read twice: by `MPDPlayer.getStatus`, which
 * compares it case-insensitively with whole words, and by the monitor's
 * `checkPlayer`, which tests case-sensitive prefixes. Both map onto the
 * shared `PlayerStatus`; this module relates the two readings.
 */
module StateWords {
  import opened Wrappers
  import opened JavaLang
  import opened MpdStatus
  import Player
  import MonitorSpec

  /** On the three words the server sends, "play", "pause" and "stop", the player and the monitor agree. */
  lemma ServerWordsAgree(conn: Player.Connection, w: string)
    requires w == "play" || w == "pause" || w == "stop"
    requires conn.status(State) == Success(Some(w))
    ensures Player.GetStatus(conn) == Success(MonitorSpec.MapState(w))
  {
    if w == "pause" {
      assert w[..4] != "play" by { assert w[..4][2] == 'u'; }
    } else if w == "stop" {
      assert ToUpperAscii(w[1]) != 'L';
      assert w[..4] != "play" by { assert w[..4][1] == 't'; }
    }
  }

  /**
   * Off those words the readings part: an upper-case "PLAY" is Playing for
   * the player but Stopped for the monitor, and "playing" the other way round.
   */
  lemma ReadingsDiffer(upper: Player.Connection, longer: Player.Connection)
    requires upper.status(State) == Success(Some("PLAY"))
    requires longer.status(State) == Success(Some("playing"))
    ensures Player.GetStatus(upper) == Success(StatusPlaying) && MonitorSpec.MapState("PLAY") == StatusStopped
    ensures Player.GetStatus(longer) == Success(StatusStopped) && MonitorSpec.MapState("playing") == StatusPlaying
  {
    assert "PLAY"[..4] != "play" by { assert "PLAY"[..4][0] == 'P'; }
    assert "playing"[..4] == "play";
  }
}

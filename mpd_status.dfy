/**
 * The vocabulary shared by the player and the monitor: the keys of the
 * server's status readout (`MPD.StatusList`, whose prefix strings are
 * distinct) and the three player states. The player and the monitor each
 * declare an identical `PlayerStatus` enum; one type stands for both.
 */
module MpdStatus {
  datatype Key =
    | Volume | Repeat | Random | Single | Consume
    | Playlist | PlaylistLength | State | CurrentSong | CurrentSongId
    | Time | Bitrate | Error | Audio | XFade
    | Other(name: string)

  datatype PlayerStatus = StatusStopped | StatusPlaying | StatusPaused
}

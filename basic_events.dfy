/**
 * `PlayerBasicChangeEvent`: the player-event ids the monitor emits and the
 * immutable (source, id, message) value that carries one of them.
 */
module PlayerBasicEvents {
  import opened Wrappers

  const PLAYER_STOPPED: int := 0
  const PLAYER_STARTED: int := 1
  const PLAYER_PAUSED: int := 2
  const PLAYER_UNPAUSED: int := 3
  const PLAYER_BITRATE_CHANGE: int := 4
  const PLAYER_RANDOM_OFF: int := 5
  const PLAYER_RANDOM_ON: int := 6
  const PLAYER_REPEAT_OFF: int := 7
  const PLAYER_REPEAT_ON: int := 8
  const PLAYER_CONSUME_OFF: int := 9
  const PLAYER_CONSUME_ON: int := 10
  const PLAYER_SINGLE_OFF: int := 11
  const PLAYER_SINGLE_ON: int := 12

  /** The ids in declaration order. */
  const IDS: seq<int> := [
    PLAYER_STOPPED, PLAYER_STARTED, PLAYER_PAUSED, PLAYER_UNPAUSED,
    PLAYER_BITRATE_CHANGE, PLAYER_RANDOM_OFF, PLAYER_RANDOM_ON,
    PLAYER_REPEAT_OFF, PLAYER_REPEAT_ON, PLAYER_CONSUME_OFF,
    PLAYER_CONSUME_ON, PLAYER_SINGLE_OFF, PLAYER_SINGLE_ON]

  /** The ids that report a mode flag (random, repeat, consume, single). */
  predicate IsModeId(id: int) { PLAYER_RANDOM_OFF <= id <= PLAYER_SINGLE_ON }

  /** The thirteen ids are 0 through 12, each in its own place, so no two coincide. */
  lemma IdsAreDistinct()
    ensures |IDS| == 13
    ensures forall i :: 0 <= i < |IDS| ==> IDS[i] == i
    ensures forall i, j :: 0 <= i < j < |IDS| ==> IDS[i] != IDS[j]
  {
  }

  /** An event object; `source` is the object that fired it (never null, as `EventObject` demands). */
  datatype PlayerBasicChangeEvent<S> = PlayerBasicChangeEvent(source: S, id: int, msg: Option<string>)
  {
    function GetId(): int { id }

    function GetMsg(): Option<string> { msg }
  }

  /**
   * The three-argument constructor. `EventObject` throws
   * IllegalArgumentException for a null source, which gives `None` here.
   */
  function NewWithMessage<S>(source: Option<S>, id: int, msg: Option<string>): (r: Option<PlayerBasicChangeEvent<S>>)
    ensures r.Some? <==> source.Some?
    ensures r.Some? ==> r.value.source == source.value && r.value.GetId() == id && r.value.GetMsg() == msg
  {
    match source
    case None => None
    case Some(s) => Some(PlayerBasicChangeEvent(s, id, msg))
  }

  /** The two-argument constructor: the three-argument one with a null message. */
  function New<S>(source: Option<S>, id: int): (r: Option<PlayerBasicChangeEvent<S>>)
    ensures r.Some? <==> source.Some?
    ensures r.Some? ==> r.value.source == source.value && r.value.GetId() == id && r.value.GetMsg() == None
  {
    NewWithMessage(source, id, None)
  }
}

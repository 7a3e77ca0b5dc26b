/**
 * The play-change decision: from the previously logged track and one
 * snapshot, whether a new play starts, and when it is taken to have started.
 */
module Detector {
  import opened Wrappers
  import opened Playback

  /** `Stopped`: nothing is playing. `NoChange`: paused, or the same track. `NewPlay`: log `item` at `playedAt`. */
  datatype Outcome = Stopped | NoChange | NewPlay(item: Item, playedAt: int)

  /**
   * The decision of one poll. Identity is the track id alone, so a replay of
   * the track just logged, or its resumption after a stop, is not a new play.
   */
  function Detect(last: Option<string>, snap: Option<Snapshot>, nowMs: int): (o: Outcome)
    ensures o.Stopped? <==> snap.None? || snap.value.item.None?
    ensures o.NewPlay? <==>
      && snap.Some? && snap.value.item.Some?
      && snap.value.isPlaying
      && snap.value.item.value.id != last
    ensures o.NewPlay? ==>
      && o.item == snap.value.item.value
      && o.playedAt == PlayedAt(StartMs(snap.value.timestamp, snap.value.progressMs), nowMs)
  {
    if snap.Some? && snap.value.item.Some? then
      var cur := snap.value;
      var item := cur.item.value;
      if cur.isPlaying && last == item.id then NoChange
      else if cur.isPlaying && item.id != last then
        NewPlay(item, PlayedAt(StartMs(cur.timestamp, cur.progressMs), nowMs))
      else NoChange
    else Stopped
  }
}

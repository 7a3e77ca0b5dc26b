/**
 * The per-track summary: one record per track id, created on its first
 * detected play and updated on every later one.
 */
module Summary {
  import opened Wrappers
  import opened Playback

  /** A summary row. Times are epoch ms; `playCount` is the number of detected plays. */
  datatype Rec = Rec(
    trackId: TrackId,
    trackName: Option<string>,
    artists: string,
    album: Option<string>,
    durationMs: int,
    firstPlayed: int,
    lastPlayed: int,
    playCount: nat)

  /**
   * The summary after a play of `item` at `playedAt`: the track's record is
   * created, or counted once more with its descriptive fields overwritten;
   * no other record changes.
   */
  function Upsert(summary: map<TrackId, Rec>, item: Item, playedAt: int): (r: map<TrackId, Rec>)
    ensures r.Keys == summary.Keys + {item.id}
    ensures forall id :: id in summary && id != item.id ==> r[id] == summary[id]
    ensures item.id in summary ==>
      && r[item.id].playCount == summary[item.id].playCount + 1
      && r[item.id].firstPlayed == summary[item.id].firstPlayed
      && r[item.id].trackId == summary[item.id].trackId
    ensures item.id !in summary ==>
      && r[item.id].playCount == 1
      && r[item.id].firstPlayed == playedAt
      && r[item.id].trackId == item.id
    ensures
      && r[item.id].lastPlayed == playedAt
      && r[item.id].trackName == item.name
      && r[item.id].artists == JoinArtists(item.artists)
      && r[item.id].album == item.albumName
      && r[item.id].durationMs == Duration(item)
  {
    var id := item.id;
    if id in summary then
      var rec := summary[id];
      summary[id := rec.(
        playCount := rec.playCount + 1,
        lastPlayed := playedAt,
        trackName := item.name,
        artists := JoinArtists(item.artists),
        album := item.albumName,
        durationMs := Duration(item))]
    else
      summary[id := Rec(id, item.name, JoinArtists(item.artists), item.albumName, Duration(item), playedAt, playedAt, 1)]
  }
}

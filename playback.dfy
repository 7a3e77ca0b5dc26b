/**
 * What one poll of the "currently playing" endpoint returns, and the pure
 * values the tracker derives from it: the joined artist string and the
 * estimated start of the playback session.
 */
module Playback {
  import opened Wrappers

  /** A track identifier as the endpoint reports it; it may be missing. */
  type TrackId = Option<string>

  /** One entry of the item's artist list; its name may be missing. */
  datatype Artist = Artist(name: Option<string>)

  /**
   * The track being played. A key the endpoint leaves out is `None`;
   * `albumName` is `None` when the album or its name is missing.
   */
  datatype Item = Item(
    id: TrackId,
    name: Option<string>,
    artists: seq<Artist>,
    albumName: Option<string>,
    durationMs: Option<int>)

  /**
   * One snapshot. `item` is `None` when the snapshot carries no (or an
   * empty) item; a missing `is_playing` key is read as false.
   */
  datatype Snapshot = Snapshot(
    item: Option<Item>,
    isPlaying: bool,
    timestamp: Option<int>,
    progressMs: Option<int>)

  /** The track length recorded in both logs: 0 when the key is missing. */
  function Duration(item: Item): int {
    item.durationMs.GetOr(0)
  }

  /** An artist counts towards the joined string only if its name is present and non-empty. */
  predicate Named(a: Artist) {
    a.name.Some? && a.name.value != ""
  }

  /** The names that survive the filter, in order. */
  function Present(artists: seq<Artist>): seq<string> {
    if |artists| == 0 then []
    else (if Named(artists[0]) then [artists[0].name.value] else []) + Present(artists[1..])
  }

  /** The names separated by ", ". */
  function Join(names: seq<string>): string {
    if |names| == 0 then ""
    else if |names| == 1 then names[0]
    else names[0] + ", " + Join(names[1..])
  }

  /** The `artists` string stored in both logs. */
  function JoinArtists(artists: seq<Artist>): string {
    Join(Present(artists))
  }

  /** Every name kept by `Present` is non-empty, and it keeps none exactly when no artist is named. */
  lemma {:induction false} PresentNamed(artists: seq<Artist>)
    ensures forall i :: 0 <= i < |Present(artists)| ==> Present(artists)[i] != ""
    ensures Present(artists) == [] <==> forall i :: 0 <= i < |artists| ==> !Named(artists[i])
  {
    if |artists| > 0 {
      PresentNamed(artists[1..]);
      assert forall i :: 1 <= i < |artists| ==> artists[i] == artists[1..][i - 1];
    }
  }

  /** Filtering an extended list extends the filtered list. */
  lemma {:induction false} PresentAppend(artists: seq<Artist>, a: Artist)
    ensures Present(artists + [a]) == Present(artists) + (if Named(a) then [a.name.value] else [])
  {
    if |artists| == 0 {
      assert [a][1..] == [];
    } else {
      assert (artists + [a])[1..] == artists[1..] + [a];
      PresentAppend(artists[1..], a);
    }
  }

  /** Joining one more name after at least one puts ", " between them. */
  lemma {:induction false} JoinAppend(names: seq<string>, n: string)
    requires |names| > 0
    ensures Join(names + [n]) == Join(names) + ", " + n
  {
    if |names| > 1 {
      assert (names + [n])[1..] == names[1..] + [n];
      JoinAppend(names[1..], n);
    }
  }

  /** The joined string is empty exactly when no artist has a present, non-empty name. */
  lemma JoinArtistsEmpty(artists: seq<Artist>)
    ensures JoinArtists(artists) == "" <==> forall i :: 0 <= i < |artists| ==> !Named(artists[i])
  {
    PresentNamed(artists);
    var names := Present(artists);
    if |names| > 0 {
      assert |Join(names)| >= |names[0]| > 0;
    }
  }

  /**
   * The join read left to right: an unnamed artist adds nothing, the first
   * named one is the whole string, every later one is appended after ", ".
   */
  lemma JoinArtistsSnoc(artists: seq<Artist>, a: Artist)
    ensures JoinArtists(artists + [a]) ==
      if !Named(a) then JoinArtists(artists)
      else if JoinArtists(artists) == "" then a.name.value
      else JoinArtists(artists) + ", " + a.name.value
  {
    PresentAppend(artists, a);
    PresentNamed(artists);
    var names := Present(artists);
    if Named(a) {
      if names == [] {
        assert Present(artists + [a]) == [a.name.value];
      } else {
        assert |Join(names)| >= |names[0]| > 0;
        JoinAppend(names, a.name.value);
      }
    } else {
      assert Present(artists + [a]) == names + [] == names;
    }
  }

  /** The estimated session start: `timestamp - progress_ms` (progress 0 when missing), none without a timestamp. */
  function StartMs(timestamp: Option<int>, progressMs: Option<int>): Option<int> {
    if timestamp.Some? then Some(timestamp.value - progressMs.GetOr(0)) else None
  }

  /** The start estimate when it is present and non-zero (a start of exactly 0 is falsy), the current time otherwise. */
  function PlayedAt(startMs: Option<int>, nowMs: int): int {
    if startMs.Some? && startMs.value != 0 then startMs.value else nowMs
  }

  /**
   * The recorded play time, from the snapshot's own fields: the estimate when
   * there is a timestamp that differs from the progress, the current time
   * otherwise (no timestamp, or a session that seems to start at epoch 0).
   */
  lemma PlayedAtFromSnapshot(timestamp: Option<int>, progressMs: Option<int>, nowMs: int)
    ensures PlayedAt(StartMs(timestamp, progressMs), nowMs) ==
      if timestamp.Some? && timestamp.value != progressMs.GetOr(0)
      then timestamp.value - progressMs.GetOr(0)
      else nowMs
  {
  }
}

/**
 * Clients of the tracker that replay the documented poll sequences and
 * check, from the contracts alone, what ends up in the ledger and summary.
 */
module Scenarios {
  import opened Wrappers
  import opened Playback
  import opened Detector
  import opened Ledger
  import opened Summary
  import opened Tracking

  /** A playing snapshot of `item`, `progressMs` into the track, captured at `timestamp`. */
  function Playing(item: Item, timestamp: int, progressMs: int): Option<Snapshot> {
    Some(Snapshot(Some(item), true, Some(timestamp), Some(progressMs)))
  }

  /**
   * After a restart seeded from a ledger whose last row is a play of track
   * `t`, that track still playing is not logged again.
   */
  lemma RestartDoesNotRelog(rows: seq<HistRec>, t: string, item: Item, timestamp: int, progressMs: int, nowMs: int)
    requires |rows| > 0 && rows[|rows| - 1].trackId == Some(t) && item.id == Some(t)
    ensures Detect(SeedLast(rows), Playing(item, timestamp, progressMs), nowMs) == NoChange
  {
  }

  /**
   * A track without an id is written to the ledger as "", so after a restart
   * the same id-less track, still playing, is logged once more.
   */
  lemma RestartRelogsMissingId(rows: seq<HistRec>, item: Item, timestamp: int, progressMs: int, nowMs: int)
    requires |rows| > 0 && rows[|rows| - 1].trackId == None && item.id == None
    ensures Detect(SeedLast(rows), Playing(item, timestamp, progressMs), nowMs).NewPlay?
  {
  }

  /** A, A ten seconds later, then B: two plays logged, each track counted once. */
  method TwoTracks() {
    var a := Item(Some("A"), Some("Song A"), [Artist(Some("X")), Artist(None)], Some("LP"), Some(200000));
    var b := Item(Some("B"), Some("Song B"), [], None, None);
    var t := new Tracker(map[], []);
    t.Step(Playing(a, 1000000, 0), 1000100);
    assert t.history == [Record(a, 1000000)] && t.last == Some("A");
    t.Step(Playing(a, 1010000, 10000), 1010100);
    assert t.history == [Record(a, 1000000)] && t.last == Some("A");
    t.Step(Playing(b, 1020000, 0), 1020100);
    assert t.history == [Record(a, 1000000), Record(b, 1020000)];
    assert t.summary.Keys == {Some("A"), Some("B")};
    assert t.summary[Some("A")].playCount == 1 && t.summary[Some("B")].playCount == 1;
    assert t.last == Some("B");
  }

  /** A, nothing playing, A again: the second A is not logged, since a stop does not clear `last`. */
  method StopThenResume() {
    var a := Item(Some("A"), Some("Song A"), [], None, Some(200000));
    var t := new Tracker(map[], []);
    t.Step(Playing(a, 5000, 0), 5100);
    assert t.last == Some("A") && |t.history| == 1;
    t.Step(None, 20000);
    t.Step(Some(Snapshot(None, false, None, None)), 30000);
    t.Step(Playing(a, 40000, 35000), 40100);
    assert |t.history| == 1 && t.summary[Some("A")].playCount == 1;
  }

  /** A paused snapshot of another track logs nothing. */
  method PausedOtherTrack() {
    var a := Item(Some("A"), None, [], None, None);
    var b := Item(Some("B"), None, [], None, None);
    var t := new Tracker(map[], []);
    t.Step(Playing(a, 5000, 0), 5100);
    t.Step(Some(Snapshot(Some(b), false, Some(9000), Some(100))), 9100);
    assert |t.history| == 1 && t.last == Some("A") && Some("B") !in t.summary;
  }

  /** A snapshot whose timestamp equals its progress gives start 0, and the play is dated by the wall clock. */
  method StartAtEpochZero() {
    var a := Item(Some("A"), None, [], None, None);
    var t := new Tracker(map[], []);
    t.Step(Playing(a, 7000, 7000), 123456);
    assert t.history == [Record(a, 123456)];
    assert t.summary[Some("A")].firstPlayed == 123456;
  }

  /** A replay of a track already in the loaded summary counts on from the loaded count and keeps its first play. */
  method ReplayLoadedTrack() {
    var a := Item(Some("A"), Some("New title"), [], None, Some(1000));
    var loaded := Rec(Some("A"), Some("Old title"), "", None, 999, 100, 500, 4);
    var ledger := [HistRec(500, Some("A"), Some("Old title"), "", None, 999), HistRec(900, Some("C"), None, "", None, 0)];
    var t := new Tracker(map[Some("A") := loaded], ledger);
    t.Step(Playing(a, 2000, 500), 2100);
    assert t.summary[Some("A")] == Rec(Some("A"), Some("New title"), "", None, 1000, 100, 1500, 5);
    assert |t.history| == 3;
  }
}

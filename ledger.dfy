/**
 * The history ledger: one row per detected play, only ever appended to, and
 * the way a restarted process recovers the last logged track from it.
 */
module Ledger {
  import opened Wrappers
  import opened Playback

  /** One history row: `played_at` (epoch ms), track id, name, joined artists, album and duration. */
  datatype HistRec = HistRec(
    playedAt: int,
    trackId: TrackId,
    trackName: Option<string>,
    artists: string,
    album: Option<string>,
    durationMs: int)

  /** The row logged for a play of `item` at `playedAt`. */
  function Record(item: Item, playedAt: int): HistRec {
    HistRec(playedAt, item.id, item.name, JoinArtists(item.artists), item.albumName, Duration(item))
  }

  /** How many rows of `h` are plays of `id`. */
  function Occurrences(h: seq<HistRec>, id: TrackId): nat {
    if |h| == 0 then 0
    else (if h[0].trackId == id then 1 else 0) + Occurrences(h[1..], id)
  }

  /** Appending a row adds one to the count of its own track and nothing to any other. */
  lemma {:induction false} OccurrencesAppend(h: seq<HistRec>, r: HistRec, id: TrackId)
    ensures Occurrences(h + [r], id) == Occurrences(h, id) + (if r.trackId == id then 1 else 0)
  {
    if |h| == 0 {
      assert [r][1..] == [];
    } else {
      assert (h + [r])[1..] == h[1..] + [r];
      OccurrencesAppend(h[1..], r, id);
    }
  }

  /** A track with no row in `h` has count 0, and one with a row has a positive count. */
  lemma {:induction false} OccurrencesPositive(h: seq<HistRec>, id: TrackId)
    ensures Occurrences(h, id) > 0 <==> exists i :: 0 <= i < |h| && h[i].trackId == id
  {
    if |h| > 0 {
      OccurrencesPositive(h[1..], id);
      assert forall i :: 1 <= i < |h| ==> h[i] == h[1..][i - 1];
      if Occurrences(h[1..], id) > 0 {
        var j :| 0 <= j < |h[1..]| && h[1..][j].trackId == id;
        assert h[j + 1].trackId == id;
      }
    }
  }

  /** The text a CSV cell holds for a track id once written and read back: a missing id is written as "". */
  function CsvText(id: TrackId): string {
    id.GetOr("")
  }

  /**
   * Seeding as written: with a history path set, the track id of the last
   * data row, read back as text. `None` stands for the crash of indexing
   * `[-1]` into a file with no data rows. The empty-path branch models only
   * the expression that seeds `last`: start-up with an empty history path
   * already fails earlier, when the ledger file is created.
   */
  function SeedAsWritten(historyPath: string, rows: seq<HistRec>): Option<Option<string>> {
    if historyPath == "" then Some(None)
    else if |rows| == 0 then None
    else Some(Some(CsvText(rows[|rows| - 1].trackId)))
  }

  /** Seeding as intended: no previous track when the ledger has no rows, else the last row's id read back as text. */
  function SeedLast(rows: seq<HistRec>): Option<string> {
    if |rows| == 0 then None else Some(CsvText(rows[|rows| - 1].trackId))
  }

  /**
   * The ledger file is created with only a header before it is read, so a
   * first run sees no data rows: as written, that start-up fails, where the
   * intended seeding yields "no previous track".
   */
  lemma SeedAsWrittenFailsOnFreshLedger(historyPath: string)
    requires historyPath != ""
    ensures SeedAsWritten(historyPath, []) == None
    ensures SeedLast([]) == None
  {
  }

  /** On a ledger with rows, and a history path set, both seedings agree. */
  lemma SeedAgreesOnNonEmptyLedger(historyPath: string, rows: seq<HistRec>)
    requires historyPath != "" && |rows| > 0
    ensures SeedAsWritten(historyPath, rows) == Some(SeedLast(rows))
  {
  }
}

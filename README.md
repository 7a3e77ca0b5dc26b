# Play-change tracker, modelled in Dafny

This project models the core of a personal listening tracker. The tracker polls a music service's
"currently playing" endpoint. From each snapshot it decides whether a new play has started. A new
play is appended as one row to an append-only history ledger and upserted into a per-track summary.

The model covers:

- the snapshot as a value (`Playback.Snapshot`, `Playback.Item`, `Playback.Artist`), with the joined
  artist string, the estimated session start `timestamp - progress_ms`, and the `played_at` choice;
- the decision of one poll (`Detector.Detect`): `Stopped`, `NoChange` or `NewPlay`, where identity
  is the track id alone;
- the ledger row (`Ledger.Record`) and the summary upsert (`Summary.Upsert`);
- the tracker's state as a class (`Tracking.Tracker`): `last` (`last_play_unique`), `summary`
  (a map from track id to record) and `history` (a sequence of rows). Its methods are the step of one
  poll (`Step`), the work on a new play (`LogPlay`), the ledger append (`AppendHistory`), the
  summary upsert (`UpsertSummary`), and the poll loop over a finite run of ticks (`Run`);
- the invariant the tracker keeps across polls (`Tracking.Consistent`). Every track's play count has
  grown since start-up by exactly the number of ledger rows logged for it. Once a row has been logged
  in this run, `last` is that row's track id; before that, it is the seeded value, the last ledger row's
  id read back as text (so a missing id seeds `""`). No two consecutive rows logged in one run are
  plays of the same track;
- the poll loop's result as a value (`Tracking.Replay`), built from the one-snapshot transition
  `Tracking.Next`, with lemmas about runs of ticks.

Times are integer epoch milliseconds. The wall-clock time of a poll is a parameter (`nowMs`).
The endpoint's answer is a parameter too: `Tracking.Fetch`, either a transient error or an optional snapshot.
A key the endpoint may leave out is an `Option`. A track id may be missing, so summary keys and
`last` are `Option<string>`. As in src.py, `None == None`, so a missing id matches "no previous track".

`Scenarios` holds client methods that replay poll sequences on a `Tracker`:

- A, A, B logs two plays.
- A, stop, A logs one play.
- A paused snapshot of another track logs nothing.
- A start estimate of 0 falls back to the wall clock.
- A replay of a track loaded from the summary continues its count.

## Model

| member | source | states |
|---|---|---|
| `Playback.JoinArtistsSnoc` | src.py:151 | the artist string read left to right: an artist with a missing or empty name adds nothing; the first named artist is the whole string; each later one is appended after ", " |
| `Playback.JoinArtistsEmpty` | src.py:151 | the artist string is empty exactly when no artist has a present, non-empty name |
| `Playback.JoinAppend` | src.py:151 | joining one more name after a non-empty list inserts ", " between them |
| `Playback.PresentNamed` | src.py:151 | the filter keeps only non-empty names; it keeps none exactly when no artist is named |
| `Playback.PlayedAtFromSnapshot` | src.py:155-168 | `played_at` is `timestamp - progress_ms` (progress 0 when missing) when a timestamp is present and that difference is non-zero; otherwise it is the current time |
| `Detector.Detect` | src.py:146-168 | `Stopped` exactly when there is no snapshot or no item; `NewPlay` exactly when the item is playing and its id differs from `last`; a `NewPlay` carries the snapshot's item and the derived `played_at`; a paused snapshot or the same track is `NoChange` |
| `Summary.Upsert` | src.py:179-198 | the key set gains the track id and nothing else; no other record changes; an existing record's count rises by exactly 1, and its `first_played` and `track_id` are kept; an unseen track gets count 1 and `first_played = played_at`; either way `last_played = played_at`, and name, artists, album and duration are the snapshot's |
| `Ledger.OccurrencesAppend` | src.py:51-56 | appending a row adds one to its own track's row count and nothing to any other track's |
| `Ledger.OccurrencesPositive` | src.py:170-177 | a track's row count is positive exactly when some row is a play of it |
| `Ledger.SeedAsWrittenFailsOnFreshLedger` | src.py:118-122 | with a history path set and a ledger with no data rows, start-up as written fails; the corrected seeding gives "no previous track" |
| `Ledger.SeedAgreesOnNonEmptyLedger` | src.py:122 | on a ledger with rows, the corrected seeding gives what the code computes: the last row's track id read back as text |
| `Tracking.NewPlayKeepsCounted` | src.py:170-198 | after a row is appended and the summary is upserted, each track's count is still its start-up count plus its rows logged since start-up, and the summary keys are still the loaded tracks plus the logged ones |
| `Tracking.NewPlayKeepsChained` | src.py:163-177 | a new play of a track other than `last` becomes `last`; it differs from the previous row logged in this run; after a restart it differs from the ledger's last row when its id is present |
| `Tracking.Tracker.constructor` | src.py:120-122 | the state after start-up is the loaded summary and ledger, with `last` seeded from the ledger's last row, and the invariant holds |
| `Tracking.Tracker.AppendHistory` | src.py:51-56 | the ledger gains exactly one row at its end; earlier rows are unchanged |
| `Tracking.Tracker.Step` | src.py:146-200 | keeps the invariant. On `NewPlay`, exactly one row is appended, the summary becomes the upsert, and `last` becomes the track id. Otherwise ledger, summary and `last` are unchanged, so a stop does not clear `last`. The new state is `Next` of the old one |
| `Tracking.Tracker.LogPlay` | src.py:166-200 | given a track other than `last`: keeps the invariant; appends exactly the row for the play; the summary becomes the upsert; `last` becomes the track id |
| `Tracking.Tracker.UpsertSummary` | src.py:179-198 | the summary becomes `Summary.Upsert` of the old one; only the summary changes |
| `Tracking.Tracker.Run` | src.py:137-217 | keeps the invariant; the new state is `Replay` of the old state over the ticks (each fetched snapshot one `Next`, each failed fetch skipped); the old ledger is a prefix of the new one; at most one row is added per tick; ticks that all failed to fetch change nothing |
| `Tracking.ReplayAppends` | src.py:51-56 | over any run of ticks, the old ledger is a prefix of the new one, and at most one row is added per tick |
| `Tracking.ReplayFailedFetches` | src.py:138-144 | ticks whose fetches all failed leave `last`, summary and ledger as they were |
| `Tracking.ContinuousPlayLoggedOnce` | src.py:160-200 | a track that plays through every tick of a run is not logged when it is already `last`; otherwise it is logged exactly once, at the first tick, with one row and one upsert |
| `Scenarios.RestartDoesNotRelog` | src.py:122-165 | after a restart seeded from a ledger whose last row is track t, track t still playing is `NoChange` |
| `Scenarios.RestartRelogsMissingId` | src.py:122-177 | a missing track id is written to the ledger as an empty cell, so after a restart the same id-less track, still playing, is logged again |

## Findings

| source | as written | input that shows it | evidently intended | confidence | as-written member | corrected member |
|---|---|---|---|---|---|---|
| src.py:122 | `last_play_unique` is the `track_id` of `[-1]` applied to the list of data rows of the history file | a first run: line 118 creates the history file with only a header, so the list is empty and indexing it fails before the poll loop starts | `None` when the ledger has no data rows; the comment at line 121 says so, and the commented-out code at lines 124-133 checks `if rows:` | not executed | `Ledger.SeedAsWritten` (shown by `Ledger.SeedAsWrittenFailsOnFreshLedger`) | `Ledger.SeedLast` (used by `Tracking.Tracker.constructor`; `Ledger.SeedAgreesOnNonEmptyLedger` and `Scenarios.RestartDoesNotRelog` are proved about it) |

## Left out

- OAuth, client construction and the endpoint call (src.py:98-113, 139): foreign library and network code. The fetch result is an input (`Tracking.Fetch`).
- CSV mechanics (`ensure_csv`, `load_summary`, `save_summary`, the file side of `append_history`, the full summary rewrite at src.py:199): persistence. The ledger is a `seq` and the summary a `map`. The one CSV effect kept is that a missing track id comes back as "" when the ledger is read at start-up (`Ledger.CsvText`).
- `iso_from_ms_epoch` and ISO-8601 text for `played_at`, `first_played` and `last_played`: float division and date formatting. Times stay integer milliseconds.
- Play counts and durations stored as text (src.py:181, 187, 194, 197), and `int()` failing on a malformed loaded count: they are modelled as numbers.
- The in-place write of the summary record's fields (src.py:181-187) is modelled as replacing the map entry. Nothing else refers to that record, so no aliasing is lost.
- `wait_or_break_if_skipped` (src.py:59-96): dead code built on clocks and sleeps.
- Sleeping, printing, the error message on a failed fetch, and the interrupt handler (src.py:135, 140-144, 201, 217-219): timing and I/O. The loop is modelled over a finite sequence of ticks.
- `remaining_ms` (src.py:203): computed and never used.
- Snapshot keys present with a JSON null where the code expects a number or an object. A null `album` fails when the album name is read. A null `progress_ms` fails in the start estimate when there is a timestamp, and otherwise only on a new play, when the unused `remaining_ms` is computed. A null `duration_ms` is logged first, and the same computation then fails. The model covers only keys that are absent or well-typed.
- The order of `first_played` and `last_played`: nothing in the code orders `first_played` before `last_played`, since `played_at` may come from the server's estimate or the local clock. The model makes no such claim.

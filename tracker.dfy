/**
 * The tracker's in-memory state across polls, and the per-poll step that
 * detects a new play, appends it to the ledger and upserts the summary.
 */
module Tracking {
  import opened Wrappers
  import opened Playback
  import opened Detector
  import opened Ledger
  import opened Summary

  /** The result of asking the endpoint for a snapshot: a transient failure, or what it returned. */
  datatype Fetch = ApiError | Fetched(snapshot: Option<Snapshot>)

  /** One tick of the poll loop: what the fetch gave, and the wall-clock time (epoch ms) of the tick. */
  datatype Poll = Poll(fetch: Fetch, nowMs: int)

  /** The tracker's state as a value: `last`, the summary and the ledger. */
  datatype State = State(last: Option<string>, summary: map<TrackId, Rec>, history: seq<HistRec>)

  /** The state after one fetched snapshot: on `NewPlay`, the row appended, the summary upserted and `last` moved; otherwise the same state. */
  function Next(s: State, snap: Option<Snapshot>, nowMs: int): State {
    match Detect(s.last, snap, nowMs)
    case NewPlay(item, playedAt) => State(item.id, Upsert(s.summary, item, playedAt), s.history + [Record(item, playedAt)])
    case _ => s
  }

  /** The state after a run of ticks, oldest first: a failed fetch leaves the state as it is. */
  function Replay(s: State, polls: seq<Poll>): State {
    if |polls| == 0 then s
    else
      var before := Replay(s, polls[..|polls| - 1]);
      var p := polls[|polls| - 1];
      match p.fetch
      case ApiError => before
      case Fetched(snap) => Next(before, snap, p.nowMs)
  }

  /** A run of ticks whose fetches all failed leaves the state as it was. */
  lemma {:induction false} ReplayFailedFetches(s: State, polls: seq<Poll>)
    requires forall i :: 0 <= i < |polls| ==> polls[i].fetch.ApiError?
    ensures Replay(s, polls) == s
  {
    if |polls| > 0 {
      ReplayFailedFetches(s, polls[..|polls| - 1]);
    }
  }

  /** The tick fetched a snapshot of track `id` playing. */
  predicate PlaysOf(p: Poll, id: TrackId) {
    && p.fetch.Fetched? && p.fetch.snapshot.Some?
    && p.fetch.snapshot.value.item.Some?
    && p.fetch.snapshot.value.isPlaying
    && p.fetch.snapshot.value.item.value.id == id
  }

  /** Over a run of ticks the ledger only grows, by at most one row per tick, and earlier rows are kept. */
  lemma {:induction false} ReplayAppends(s: State, polls: seq<Poll>)
    ensures s.history <= Replay(s, polls).history
    ensures |Replay(s, polls).history| <= |s.history| + |polls|
  {
    if |polls| > 0 {
      ReplayAppends(s, polls[..|polls| - 1]);
    }
  }

  /**
   * A track that keeps playing through a run of ticks is logged once: not at
   * all when it is already `last`, otherwise exactly at the first tick, with
   * one row and one upsert.
   */
  lemma {:induction false} ContinuousPlayLoggedOnce(s: State, polls: seq<Poll>, id: TrackId)
    requires forall i :: 0 <= i < |polls| ==> PlaysOf(polls[i], id)
    ensures s.last == id ==> Replay(s, polls) == s
    ensures s.last != id && |polls| > 0 ==>
      PlaysOf(polls[0], id) &&
      var o := Detect(s.last, polls[0].fetch.snapshot, polls[0].nowMs);
      && o.NewPlay?
      && Replay(s, polls) == State(id, Upsert(s.summary, o.item, o.playedAt), s.history + [Record(o.item, o.playedAt)])
  {
    if |polls| > 0 {
      var init := polls[..|polls| - 1];
      ContinuousPlayLoggedOnce(s, init, id);
      if |init| > 0 {
        assert init[0] == polls[0];
      }
    }
  }

  /** The play count a track had at start-up (0 for a track not in the loaded summary). */
  function BaseCount(seeded: map<TrackId, Rec>, id: TrackId): nat {
    if id in seeded then seeded[id].playCount else 0
  }

  /**
   * The summary holds the tracks loaded at start-up and those logged since,
   * and each track's count has grown by exactly its number of ledger rows
   * after the first `seedLen`.
   */
  ghost predicate Counted(seeded: map<TrackId, Rec>, seedLen: nat, summary: map<TrackId, Rec>, history: seq<HistRec>)
    requires seedLen <= |history|
  {
    && (forall id :: id in summary <==> id in seeded || Occurrences(history[seedLen..], id) > 0)
    && (forall id :: id in summary ==> summary[id].playCount == BaseCount(seeded, id) + Occurrences(history[seedLen..], id))
  }

  /**
   * `last` is the track of the last row logged since start-up (the seeded
   * value before any), and no two consecutive rows logged since start-up,
   * nor the first of them and the row before it when its id is present,
   * are plays of the same track.
   */
  ghost predicate Chained(seedLen: nat, history: seq<HistRec>, last: Option<string>)
    requires seedLen <= |history|
  {
    && (|history| == seedLen ==> last == SeedLast(history))
    && (|history| > seedLen ==> last == history[|history| - 1].trackId)
    && (forall i :: seedLen <= i && i + 1 < |history| ==> history[i].trackId != history[i + 1].trackId)
    && (0 < seedLen < |history| && history[seedLen].trackId.Some? ==>
          history[seedLen].trackId != history[seedLen - 1].trackId)
  }

  /** The tracker's invariant across polls. */
  ghost predicate Consistent(seeded: map<TrackId, Rec>, seedLen: nat, summary: map<TrackId, Rec>,
                             history: seq<HistRec>, last: Option<string>)
  {
    seedLen <= |history| && Counted(seeded, seedLen, summary, history) && Chained(seedLen, history, last)
  }

  /** A new play keeps the counts right: the upserted track gains one, and so does its row count. */
  lemma NewPlayKeepsCounted(seeded: map<TrackId, Rec>, seedLen: nat, summary: map<TrackId, Rec>,
                            history: seq<HistRec>, item: Item, playedAt: int)
    requires seedLen <= |history| && Counted(seeded, seedLen, summary, history)
    ensures Counted(seeded, seedLen, Upsert(summary, item, playedAt), history + [Record(item, playedAt)])
  {
    var row := Record(item, playedAt);
    var before := history[seedLen..];
    var after := (history + [row])[seedLen..];
    assert after == before + [row];
    forall id
      ensures Occurrences(after, id) == Occurrences(before, id) + (if id == item.id then 1 else 0)
    {
      OccurrencesAppend(before, row, id);
    }
  }

  /** A new play of a track other than `last` keeps the chain: it becomes `last`, and differs from the row before. */
  lemma NewPlayKeepsChained(seedLen: nat, history: seq<HistRec>, last: Option<string>, item: Item, playedAt: int)
    requires seedLen <= |history| && Chained(seedLen, history, last)
    requires item.id != last
    ensures Chained(seedLen, history + [Record(item, playedAt)], item.id)
  {
  }

  /** A new play of a track other than `last`, logged and upserted, keeps the invariant. */
  lemma NewPlayKeepsConsistent(seeded: map<TrackId, Rec>, seedLen: nat, summary: map<TrackId, Rec>,
                               history: seq<HistRec>, last: Option<string>, item: Item, playedAt: int)
    requires Consistent(seeded, seedLen, summary, history, last)
    requires item.id != last
    ensures Consistent(seeded, seedLen, Upsert(summary, item, playedAt), history + [Record(item, playedAt)], item.id)
  {
    NewPlayKeepsCounted(seeded, seedLen, summary, history, item, playedAt);
    NewPlayKeepsChained(seedLen, history, last, item, playedAt);
  }

  class Tracker {
    /** The track id of the last detected play (`last_play_unique`). */
    var last: Option<string>
    /** The summary table, keyed by track id. */
    var summary: map<TrackId, Rec>
    /** The history ledger, oldest row first. */
    var history: seq<HistRec>

    /** The summary as loaded at start-up. */
    ghost var seeded: map<TrackId, Rec>
    /** The number of ledger rows present at start-up. */
    ghost var seedLen: nat

    /** The run's invariant, on the current fields (see `Consistent`). */
    ghost predicate Valid()
      reads this
    {
      Consistent(seeded, seedLen, summary, history, last)
    }

    /** Start-up: the loaded summary and ledger, with `last` seeded from the ledger's last row. */
    constructor (loaded: map<TrackId, Rec>, ledger: seq<HistRec>)
      ensures Valid()
      ensures summary == loaded && history == ledger && last == SeedLast(ledger)
      ensures seeded == loaded && seedLen == |ledger|
    {
      summary := loaded;
      history := ledger;
      last := SeedLast(ledger);
      seeded := loaded;
      seedLen := |ledger|;
      new;
      assert history[seedLen..] == [];
    }

    /** Adds one row at the end of the ledger; earlier rows are untouched. */
    method AppendHistory(r: HistRec)
      modifies this`history
      ensures history == old(history) + [r]
    {
      history := history + [r];
    }

    /**
     * One poll's worth of work on `snap`, fetched at wall-clock `nowMs`: on a
     * new play, exactly one ledger row, the summary upsert and the new `last`;
     * otherwise nothing changes.
     */
    method Step(snap: Option<Snapshot>, nowMs: int)
      requires Valid()
      modifies this
      ensures Valid() && seeded == old(seeded) && seedLen == old(seedLen)
      ensures match Detect(old(last), snap, nowMs)
        case NewPlay(item, playedAt) =>
          && history == old(history) + [Record(item, playedAt)]
          && summary == Upsert(old(summary), item, playedAt)
          && last == item.id
        case _ =>
          history == old(history) && summary == old(summary) && last == old(last)
      ensures State(last, summary, history) == Next(old(State(last, summary, history)), snap, nowMs)
    {
      if snap.Some? && snap.value.item.Some? {
        var cur := snap.value;
        var isPlaying := cur.isPlaying;
        var item := cur.item.value;
        var startMs := StartMs(cur.timestamp, cur.progressMs);
        var uniquePlay := item.id;

        if isPlaying && last == uniquePlay {
          // the same track as the last detected play: nothing to log
        } else if isPlaying && uniquePlay != last {
          var playedAt := PlayedAt(startMs, nowMs);
          LogPlay(item, playedAt);
        }
      }
      // no item: nothing is playing, and `last` is kept
    }

    /**
     * The work done on a new play of `item` at `playedAt`: one ledger row,
     * the summary record created or counted once more, and `item`'s id as
     * the new `last`.
     */
    method LogPlay(item: Item, playedAt: int)
      requires Valid() && item.id != last
      modifies this
      ensures Valid() && seeded == old(seeded) && seedLen == old(seedLen)
      ensures history == old(history) + [Record(item, playedAt)]
      ensures summary == Upsert(old(summary), item, playedAt)
      ensures last == item.id
    {
      NewPlayKeepsConsistent(seeded, seedLen, summary, history, last, item, playedAt);
      AppendHistory(Record(item, playedAt));
      UpsertSummary(item, playedAt);
      last := item.id;
    }

    /** The summary update of a new play: the track's record is counted once more and refreshed, or created. */
    method UpsertSummary(item: Item, playedAt: int)
      modifies this`summary
      ensures summary == Upsert(old(summary), item, playedAt)
    {
      var trackId := item.id;
      var trackName := item.name;
      var artists := JoinArtists(item.artists);
      var album := item.albumName;
      var durationMs := Duration(item);
      if trackId in summary {
        var rec := summary[trackId];
        summary := summary[trackId := rec.(
          playCount := rec.playCount + 1,
          lastPlayed := playedAt,
          trackName := trackName,
          artists := artists,
          album := album,
          durationMs := durationMs)];
      } else {
        summary := summary[trackId := Rec(trackId, trackName, artists, album, durationMs, playedAt, playedAt, 1)];
      }
    }

    /**
     * The poll loop over a finite run of ticks: a failed fetch changes
     * nothing, every other tick is one `Step`; the new state is the replay
     * of the ticks. The ledger only grows, by at most one row per tick.
     */
    method Run(polls: seq<Poll>)
      requires Valid()
      modifies this
      ensures Valid() && seeded == old(seeded) && seedLen == old(seedLen)
      ensures old(history) <= history
      ensures |history| <= |old(history)| + |polls|
      ensures (forall i :: 0 <= i < |polls| ==> polls[i].fetch.ApiError?) ==>
        history == old(history) && summary == old(summary) && last == old(last)
      ensures State(last, summary, history) == Replay(old(State(last, summary, history)), polls)
    {
      for i := 0 to |polls|
        invariant Valid() && seeded == old(seeded) && seedLen == old(seedLen)
        invariant State(last, summary, history) == Replay(old(State(last, summary, history)), polls[..i])
      {
        assert polls[..i + 1][..i] == polls[..i];
        match polls[i].fetch
        case ApiError =>
          // the error is reported and the loop waits for the next tick
        case Fetched(s) =>
          Step(s, polls[i].nowMs);
      }
      assert polls[..|polls|] == polls;
      ReplayAppends(old(State(last, summary, history)), polls);
      if forall i :: 0 <= i < |polls| ==> polls[i].fetch.ApiError? {
        ReplayFailedFetches(old(State(last, summary, history)), polls);
      }
    }
  }
}
